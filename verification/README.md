# OpenWork execution core

A model of the OpenWork execution core and proofs about it in Dafny. `dafny verify dfyconfig.toml`
checks the whole project.

The centre is the **in-memory execution store**: eight linked maps (runs, audit chains, artifacts, approvals,
approval windows, action claims, leases, cancel intents) that API clients, workers, approvers and a recovery
sweeper change concurrently, each operation under one mutex. `StoreState` gives every operation as a function
on a state, `ExecutionStore` is the store as a class whose methods update the maps in place and are proved equal
to those functions, `StoreInvariant` is the joint invariant, and `History` turns calls into histories: any
sequence of operations, by anyone, with any arguments. `Guarantees`, `RunMovement`, `LeaseGuarantees`,
`ApprovalGuarantees` and `ClaimOrigins` hold what is true of every history; `Witnesses` has short histories, for any
digests, that reach the surprising states among them. `Contracts`, `LeaseContracts` and `ApprovalContracts` say for
every operation in every valid state exactly when it succeeds, what it answers and what it leaves; `Chronicle` and
`Deadlines` draw from them what every chain says and when leases, approvals and runs change.

Around the store:

- `ActionExecution`: the executor boundary, over all interleavings of calls, retries and store operations.
- `Worker`, `WorkerSteps`: the worker and its supervisor on the store object, while other actors perform any operations
  between its calls; which end it reports, by which calls, and that it gets there when nobody hinders it.
- `SandboxProtocol`, `SandboxAnswers`, `CaptureBudget`: container, monitor, cancel calls and disposal step by step, what
  is answered about the container, and the shared output budget.
- `RuntimeDecoding`: the event factory and the decoding of a sandbox result.
- `SecretWords`, `TextRedaction`, `SecretReading`, `JsonRedaction`, `AuditWire`: the redactor, what it does said
  without its search and its counters, and the stored form of audit events whose round trip depends on it.
- `JsonText`, `AuditText`: data printed as text, the text that an event's hash is taken of and the text it is stored as.
- `PromptHandOff`, `PromptTerms`, `PromptRefusals`, `PromptWitnesses`: the prompt broker and the creation gate, with the
  store, while others use it; how long a prompt is kept, and what becomes of runs without one.
- `Installer`, `InstallerCompletion`, `InstallerRollback`, `InstallerReport`, `InstallerPlans`: executing an install plan
  over a file tree, what a completed one leaves, undoing it, what the report admits, and which plans leave no trace.

How things are represented: digests are opaque functions (`Hashes`), and where distinct digests are needed the
hypothesis is that the events at hand do not collide; time is an integer of nanoseconds and an argument of every
call; identifiers are 128-bit numbers and fresh ones are arguments; a lock is always acquired. A trace is a list
of atomic steps, so a statement about all traces is one about all interleavings.

What the code turned out to do:

- `append_audit` admits an execution event without metadata, even for a claimed action (`SpoiledReceiptIsReachable`);
  from then on no receipt of that run can be reconciled (`SpoiledForever`). `ReceiptScanIsExact` says that nothing else
  spoils a receipt.
- `consume_approval` does not look at leases, so it leaves a leased run's lease behind (`LagIsReachable`), and nothing
  else does; the lag ends when the holder moves the run or loses the lease (`LagBeginsAndEnds`). A lagging lease is
  never renewed, and only a lagging one is refused within its time (`StoredLeaseIsRenewedUnlessItLags`). The worker's
  store trait says that a heartbeat returns the latest revision; the store refuses instead, and the model follows the
  store.
- One refusal in `consume_approval` is unreachable and two of the four duplicate tests in `create_approval` are
  redundant; three refusals of the decoder cannot occur with a factory-based decoder.
- Rollback does not always restore the tree: a downloader creates missing parent directories that nobody tracks,
  and a failing operation may leave something. `RollbackRestoresExactlyWhenTracked` gives the exact condition for a run
  and `AlwaysRestoredExactlyWhenCovered` the one for a plan; plans of `managed_runtime_plan` meet it. The report's
  `partial_state` is documented as speaking of commands and failed rollback operations only, and that is what it does:
  `PartialStateIsExact` says which leftovers it admits and which it passes over.
- A run that an unleased writer moves to cancelled is announced by a "run failed" event, and a run moved by a cancel or
  a confirmation by "cancel confirmed" (`CancellationsAreToldApart`). Neither kind proves a move: `append_audit` writes
  any kind without moving anything (`ConfirmationWithoutCancel`).
- The gate around creation and claims does not keep others from the store. A run whose prompt was refused stays queued
  when its cancel request is dated before the last event of its chain, which anyone may have written meanwhile
  (`QueuedWithoutPromptIsReachable`), or the chain is full, and for no other reason (`LeftQueued`,
  `QueuedStaysQueued`); only then can such a run be claimed (`GateClosesTheGap`). In the same way a run that was claimed
  without a prompt can stay leased (`LeaseWithoutPromptIsReachable`); `WorkerFailIsExact` says when.
- A cancel can come between the registration of a container and its start. If the engine reports the kill of a
  container that does not run yet as a success, the container runs after a successful cancel
  (`RunningAfterSuccessfulCancel`); the result still says cancelled only when all is disposed of.
- A chain never gives its last place to an artifact: a batch is refused where single events would still fit
  (`BatchIsExact`).
- The redactor's table of upper-case keys is redundant: the assignments already cover it (`WordKeysAssign`).
- Exchanging the words of a secret's value changes nothing in the redacted text, except whether the word behind "key:"
  is a bare separator (`SecretsDoNotShow`, `SeparatorShowsInSource`).

## Model

| member | source | states |
|---|---|---|
| `History.EveryOperationKeepsTheInvariant` | crates/openwork-execution/src/store/mod.rs:309-323 | every operation, with any arguments and any outcome, keeps the joint invariant of the eight maps and only moves the state forward (runs by revision, chains and artifact lists by extension, leases never granted anew, intents until the run has stopped, approvals along their states, claims for good) |
| `History.EveryHistoryIsValid` | crates/openwork-execution/src/store/mod.rs:309-323 | every state of every history that starts with an empty store satisfies the joint invariant |
| `History.LaterFollows` | crates/openwork-execution/src/store/mod.rs:325-563 | any later state of a history is a forward move of any earlier one |
| `History.SharedStoreFollows` | crates/openwork-execution/src/store/mod.rs:635-641 | the same for a store that other components share: any interleaving that moves it only by operations |
| `StoreActors.Perform` | crates/openwork-execution/src/store/mod.rs:309-323 | every method of the store object makes exactly the step that histories are made of, so any use of the object is a history |
| `ExecutionStore.InMemoryExecutionStore.constructor` | crates/openwork-execution/src/store/mod.rs:307-323 | a new store is empty and valid |
| `ExecutionStore.InMemoryExecutionStore.AppendEvent` | crates/openwork-execution/src/store/mod.rs:1141-1168 | one event without metadata is sealed onto the chain, or nothing changes |
| `ExecutionStore.InMemoryExecutionStore.ApplyTransition` | crates/openwork-execution/src/store/mod.rs:1181-1213 | a checked transition changes one run and one chain, or nothing |
| `ExecutionStore.InMemoryExecutionStore.CreateRun` | crates/openwork-execution/src/store/mod.rs:326-341 | in place, what the function of the old state says: a new queued run with its genesis event, or nothing for a known id or another genesis time; keeps the joint invariant |
| `ExecutionStore.InMemoryExecutionStore.TransitionRun` | crates/openwork-execution/src/store/mod.rs:343-408 | in place, what the function says: an unleased run at the expected revision moves along an allowed transition with its event, or nothing; keeps the joint invariant |
| `ExecutionStore.InMemoryExecutionStore.AppendAudit` | crates/openwork-execution/src/store/mod.rs:410-440 | in place, what the function says: one event of any kind without metadata on an unleased run, or nothing; keeps the joint invariant |
| `ExecutionStore.InMemoryExecutionStore.ReconcileExecution` | crates/openwork-execution/src/store/mod.rs:442-484 | in place, what the function says: a claimed receipt not yet recorded is recorded and answered true, a recorded one answered false; keeps the joint invariant |
| `ExecutionStore.InMemoryExecutionStore.RecordArtifacts` | crates/openwork-execution/src/store/mod.rs:486-563 | in place, what the function says for an unleased run; keeps the joint invariant |
| `ExecutionStore.InMemoryExecutionStore.ClaimNextRun` | crates/openwork-execution/src/store/mod.rs:644-685 | in place, what the function says: the first claimable run is planned and leased, none if there is none; keeps the joint invariant |
| `ExecutionStore.InMemoryExecutionStore.HeartbeatLease` | crates/openwork-execution/src/store/mod.rs:687-718 | in place, what the function says: a current lease gets a new expiry and the present cancel flag; keeps the joint invariant; `HeartbeatIsExact` says when and until when |
| `ExecutionStore.InMemoryExecutionStore.TransitionLeasedRun` | crates/openwork-execution/src/store/mod.rs:720-749 | in place, what the function says: the holder moves its run to a non-terminal status and the lease follows it; keeps the joint invariant |
| `ExecutionStore.InMemoryExecutionStore.CompleteLeasedRun` | crates/openwork-execution/src/store/mod.rs:751-786 | in place, what the function says: the holder ends its run, not with success under an intent, and lease and intent go; keeps the joint invariant |
| `ExecutionStore.InMemoryExecutionStore.AppendLeasedAudit` | crates/openwork-execution/src/store/mod.rs:788-814 | in place, what the function says: the holder appends one of the five worker events; keeps the joint invariant |
| `ExecutionStore.InMemoryExecutionStore.RecordLeasedArtifacts` | crates/openwork-execution/src/store/mod.rs:816-859 | in place, what the function says for the holder; keeps the joint invariant |
| `ExecutionStore.InMemoryExecutionStore.RequestCancel` | crates/openwork-execution/src/store/mod.rs:861-915 | in place, what the function says: cancelled at once when waiting and unleased, an intent when leased, the status when terminal; keeps the joint invariant |
| `ExecutionStore.InMemoryExecutionStore.ConfirmCancel` | crates/openwork-execution/src/store/mod.rs:938-986 | in place, what the function says: the holder with evidence and a recorded intent ends its run as cancelled; keeps the joint invariant |
| `ExecutionStore.InMemoryExecutionStore.CreateApproval` | crates/openwork-execution/src/store/mod.rs:1216-1275 | in place, what the function says: a redacted, valid, new request for an awaiting run opens with the run's revision as its window; keeps the joint invariant |
| `ExecutionStore.InMemoryExecutionStore.DecideApproval` | crates/openwork-execution/src/store/mod.rs:1277-1327 | in place, what the function says: a pending, current, unexpired request is decided, approvals only within their window; keeps the joint invariant |
| `ExecutionStore.InMemoryExecutionStore.ExpireApproval` | crates/openwork-execution/src/store/mod.rs:1329-1364 | in place, what the function says: an expired open request at the expected revision is closed; keeps the joint invariant; `ExpiryIsExact` says exactly when |
| `ExecutionStore.InMemoryExecutionStore.AddArtifacts` | crates/openwork-execution/src/store/mod.rs:494-562 | the batch and one event per artifact are stored together, or nothing |
| `ExecutionStore.InMemoryExecutionStore.RecoverOne` | crates/openwork-execution/src/store/mod.rs:1000-1015 | one expired run is failed and released, or nothing changes |
| `ExecutionStore.InMemoryExecutionStore.RecoverExpiredLeases` | crates/openwork-execution/src/store/mod.rs:988-1017 | the loop leaves the state and the answer of the recovery function, also when it fails half-way; the invariant holds |
| `ExecutionStore.InMemoryExecutionStore.ConsumeBound` | crates/openwork-execution/src/store/mod.rs:1400-1462 | approval, claim, run and two events change together, or nothing |
| `ExecutionStore.InMemoryExecutionStore.ConsumeApproval` | crates/openwork-execution/src/store/mod.rs:1366-1462 | state and answer of the consumption function, including the recorded binding mismatch; the invariant holds |
| `Contracts.CreateIsExact` | crates/openwork-execution/src/store/mod.rs:326-341 | in every valid state: a run is created if and only if it is new, the genesis event has its creation time and its id is unknown; it is stored as given, with one "run created" event, and nothing else changes |
| `Contracts.MoveIsExact` | crates/openwork-execution/src/store/mod.rs:343-408 | in every valid state: an unleased write moves a run if and only if it is there, unleased, at the expected revision, the move is allowed and its chain takes one more event (the last one is not later, and there is room); the new record is the run dated then (one more revision, started when it first runs, completed when it ends, with the given reason in redacted form or "unspecified" unless it succeeded), and one event of the kind and detail of the status is added |
| `Contracts.AuditIsExact` | crates/openwork-execution/src/store/mod.rs:410-440 | in every valid state: an event of any kind is appended if and only if the run is there, unleased, and its chain takes it; nothing else changes |
| `Contracts.ReconciliationIsExact` | crates/openwork-execution/src/store/mod.rs:442-484 | in every valid state: a receipt is answered if and only if its run is unleased, its claim is stored and its chain has no execution event without metadata, and it is recorded already or the chain takes it; answered false it changes nothing, answered true one event with its action and hash is added |
| `Contracts.BatchIsExact` | crates/openwork-execution/src/store/mod.rs:494-562 | in every valid state: artifacts are recorded if and only if the batch is valid for the run and its chain takes one event each, leaving its last place free; they follow the stored ones, with one event each in their order |
| `LeaseContracts.ClaimIsExact` | crates/openwork-execution/src/store/mod.rs:644-685 | in every valid state: a claim is refused only for a bad term or if the chain of the run whose turn it is does not take the event; it answers none if and only if no run is claimable, and otherwise leases the run whose turn it is, as planned then, to that owner with that token from now until the end of the term asked for, with one event |
| `LeaseContracts.HeartbeatIsExact` | crates/openwork-execution/src/store/mod.rs:687-718 | in every valid state: a heartbeat succeeds if and only if the term is allowed and the lease is held, level with its run and not behind its clock; the stored lease then ends at now plus the term asked for, keeps token, owner and start, shows the run as it is and the present intent, is what is answered, and no other lease or map changes |
| `LeaseContracts.LeasedMoveIsExact` | crates/openwork-execution/src/store/mod.rs:720-749 | in every valid state: the holder moves its run if and only if it holds the lease at the expected revision, the status is allowed and not an end, and the chain takes the event; run and lease show the same dated record, the rest of the lease stays |
| `LeaseContracts.CompletionIsExact` | crates/openwork-execution/src/store/mod.rs:751-786 | in every valid state: the holder ends its run if and only if it holds the lease at the expected revision, the end is allowed, is no success under an intent, and the chain takes the event; the dated record is stored and answered, lease and intent go, one event is added |
| `LeaseContracts.LeasedAuditIsExact` | crates/openwork-execution/src/store/mod.rs:788-814 | in every valid state: the holder appends an event if and only if it is one of the five worker events, the lease is held at the expected revision and the chain takes it |
| `LeaseContracts.LeasedBatchIsExact` | crates/openwork-execution/src/store/mod.rs:816-859 | in every valid state: the holder records artifacts if and only if the lease is held at the expected revision and the unleased recording would be exact for them, with the same effect |
| `LeaseContracts.AnswerIsExact` | crates/openwork-execution/src/store/mod.rs:917-936 | in every valid state: the holder at the stored revision, and nobody else, is answered, with whether an intent is recorded |
| `LeaseContracts.CancelIsExact` | crates/openwork-execution/src/store/mod.rs:861-915 | in every valid state, case by case: a terminal run answers its status, a recorded intent stands, a leased run gets an intent dated now that its lease shows, a waiting run is cancelled; the last two exactly when the chain takes the event, and nothing else changes |
| `LeaseContracts.ConfirmIsExact` | crates/openwork-execution/src/store/mod.rs:938-986 | in every valid state: a confirmation succeeds if and only if the evidence is for this lease, the lease is held at its stored revision and its run's, an intent is recorded and the chain takes the event; the run is cancelled then, lease and intent go |
| `Chronicle.RecoveryLoopIsExact` | crates/openwork-execution/src/store/mod.rs:1000-1015 | in every valid state the loop recovers the expired runs in order up to the first whose chain does not take its event, and exactly those: each is failed and dated, with one event, and its lease and intent go |
| `ApprovalContracts.RequestIsExact` | crates/openwork-execution/src/store/mod.rs:1216-1275 | in every valid state: a request is taken if and only if it is pending, at revision 0, from its requester now, short enough, valid once redacted, for a run that waits, and neither its id nor its action has an approval; it is stored redacted and bound to the run's revision |
| `ApprovalContracts.DecisionIsExact` | crates/openwork-execution/src/store/mod.rs:1277-1327 | in every valid state: a decision is taken if and only if the request is pending at the expected revision, the time is from its creation to before its expiry, the reason is short enough, for an approval the run has not moved, and the chain takes the event; it records decision, actor, time and redacted reason, and is announced as approved or denied |
| `ApprovalContracts.ExpiryIsExact` | crates/openwork-execution/src/store/mod.rs:1329-1364 | in every valid state: an approval expires if and only if it is pending or approved, at the expected revision, its expiry is not after now and the chain takes the event; status and revision change and nothing else of it |
| `ApprovalContracts.ConsumptionIsExact` | crates/openwork-execution/src/store/mod.rs:1366-1462 | in every valid state: a consumption succeeds if and only if the approval is approved at the expected revision, the time is from its decision to before its expiry, the run still waits at the revision it was asked at, the action is the one bound, and the chain takes two events; the approval is consumed now, the run runs, the claim names action, actor and time, and two events say so |
| `ApprovalContracts.MismatchIsExact` | crates/openwork-execution/src/store/mod.rs:1381-1399 | in every valid state a consumption that fails changes nothing, except that an approval which could be consumed, presented with another action, is answered by one event, if the chain takes it |
| `Chronicle.EveryOperationTellsWhatIsDue` | crates/openwork-execution/src/store/mod.rs:325-1462 | for every operation in every valid state and every run: the chain grows by exactly the events a table of operations says are due, by whom, when and with what detail, and none for an operation that fails, except a mismatch and what a recovery had done |
| `Chronicle.EveryChainIsItsStory` | crates/openwork-execution/src/store/mod.rs:325-1462 | in every state of every history every chain says, event for event, in kind, actor, time and detail, what the operations so far owed it, in their order: nothing is missing, added or moved |
| `Deadlines.TermIsAsAskedFor` | crates/openwork-execution/src/store/mod.rs:644-718 | a claim and a heartbeat that succeed, in every valid state, make the lease end at their time plus the term they ask for; the heartbeat came before the old end and changes neither holder nor start |
| `Deadlines.TermStands` | crates/openwork-execution/src/store/mod.rs:644-1017 | no other operation moves the end of any lease's term |
| `Deadlines.NeverRecoveredWhileBeating` | crates/openwork-execution/src/store/mod.rs:687-1017 | in every history with a clock that does not go back: a holder that beats in every term before it ends, from the claim or any beat on, is never among the runs that a recovery in between lists or returns, and its lease and run are left as they are |
| `Deadlines.EveryApprovalChangeIsEarned` | crates/openwork-execution/src/store/mod.rs:1216-1462 | for every operation in every valid state: an approval appears, is granted, is denied, expires and is consumed exactly under the condition of that step, with exactly that record, and is as it was otherwise |
| `Deadlines.EveryStatusIsEarned` | crates/openwork-execution/src/store/mod.rs:1216-1462 | for every operation in every valid state: an approval becomes approved, denied, expired or consumed if and only if that operation is its decision, expiry or consumption and meets who, from which status, at which revision and at which time; nothing becomes pending again |
| `Deadlines.EveryApprovalHasItsStep` | crates/openwork-execution/src/store/mod.rs:1216-1462 | in every state of every history every approval was brought to its status by a step that earned it, and is as that step left it |
| `Deadlines.EveryRunIsDated` | crates/openwork-execution/src/store/mod.rs:325-1462 | for every operation in every valid state: a run that changes is moved along an allowed transition and dated by that operation's clock, and has the operation's reason in redacted form if and only if it ends without success; nothing else of its record ever changes |
| `Deadlines.SucceededAfterRunning` | crates/openwork-execution/src/lib.rs:361-386 | in every history a succeeded run was in planning at one step and running at a later one, before it succeeded |
| `StoreScans.ScanReceipts` | crates/openwork-execution/src/store/mod.rs:599-633 | the one-pass scan with an eight-bit counter decides what the definition by count and spoiling event decides, on every chain |
| `StoreScans.FindNextInQueue` | crates/openwork-execution/src/store/mod.rs:651-662 | the search finds the claimable run with the least (creation time, id), or none if there is none |
| `StoreScans.SealArtifacts` | crates/openwork-execution/src/store/mod.rs:532-553 | the loop that carries previous hash and sequence number seals the batch exactly as sealing one after another does, with the same first error |
| `AuditChain.SealKeepsChain` | crates/openwork-execution/src/store/mod.rs:1141-1168 | sealing at the end keeps a chain verifying at every position |
| `AuditChain.TimesNeverDecrease` | crates/openwork-execution/src/store/mod.rs:1148-1153 | times never go back along a chain |
| `AuditChain.SameHeadSameChain` | crates/openwork-execution/src/lib.rs:518-577 | two verifying chains with the same head hash are equal event for event, unless the digest collides on their own events |
| `AuditChain.TamperingIsDetected` | crates/openwork-execution/src/lib.rs:554-577 | replacing any event by a different one breaks the chain or its head |
| `Guarantees.EveryChainVerifies` | crates/openwork-execution/src/lib.rs:554-577 | in every reachable state every event verifies at its position, is of its run and no later than the last one, and no run was updated after its last event |
| `Guarantees.RecordedIsForever` | crates/openwork-execution/src/store/mod.rs:325-563 | recorded events stay at their positions for good, revisions and update times only grow, a terminal run never changes |
| `RunMovement.EveryStatusIsAnnounced` | crates/openwork-execution/src/store/mod.rs:1572-1582 | for each run that has left the queue there is a step of the history that gave it its present status, and that step's event stands in the chain, of the kind that the step and the status call for and with the time of the last update |
| `RunMovement.CancellationsAreToldApart` | crates/openwork-execution/src/store/mod.rs:861-986 | for every operation: a step that moves a run to cancelled ends its chain in "cancel confirmed" if and only if it is a cancel or a confirmation, and in "run failed" if and only if it is an unleased transition |
| `Witnesses.CancelledWithoutConfirmation` | crates/openwork-execution/src/store/mod.rs:343-408 | a history whose cancelled run has no "cancel confirmed" event at all |
| `Witnesses.ConfirmationWithoutCancel` | crates/openwork-execution/src/store/mod.rs:410-440 | a history whose "cancel confirmed" event stands on a run that is still queued |
| `Guarantees.ClaimTakesNextInQueue` | crates/openwork-execution/src/store/mod.rs:644-685 | a claim takes the first queued run and leaves it planned and leased with exactly that snapshot, token and expiry |
| `Guarantees.QueueIsNeverMissed` | crates/openwork-execution/src/store/mod.rs:651-662 | the queue is found empty exactly when no run is claimable |
| `Guarantees.ClaimedAtMostOnce` | crates/openwork-execution/src/store/mod.rs:644-685 | no run is claimed by two different steps of any history |
| `Guarantees.OneGrantPerRun` | crates/openwork-execution/src/store/mod.rs:675-684 | whenever a run is leased it is the same token, owner and start, and the run is neither queued nor terminal |
| `Guarantees.OnlyTheHolderSucceeds` | crates/openwork-execution/src/store/mod.rs:1050-1075 | a lease-bound operation succeeds only with the stored token and owner and within the lease's lifetime |
| `Guarantees.ReleasedRunIsFenced` | crates/openwork-execution/src/store/mod.rs:1050-1075 | once a run that left the queue has no lease, no lease-bound operation on it ever succeeds or changes anything |
| `Guarantees.UnboundWritesAreRefused` | crates/openwork-execution/src/store/mod.rs:1077-1084 | while a run is leased, every write without a lease is refused and changes nothing |
| `RunMovement.EveryMoveIsEntitled` | crates/openwork-execution/src/store/mod.rs:325-1017 | a run changes only by an operation entitled to that change (who, from where, to which status, with which evidence), together with its announcing event and a redacted reason |
| `LeaseGuarantees.ExpiryStands` | crates/openwork-execution/src/store/mod.rs:687-718 | no operation made at or after its expiry extends a lease |
| `LeaseGuarantees.ExpiredLeaseStaysDead` | crates/openwork-execution/src/store/mod.rs:1050-1075 | under a clock that does not go back, a lease that has expired once never serves an operation again |
| `LeaseGuarantees.EveryLeaseHasItsFate` | crates/openwork-execution/src/store/mod.rs:644-1017 | what any one operation does to any one lease and its run: it releases the lease, leaves both alone, renews an unexpired lease that is level with its run, moves the run with the lease (only the holder), or moves the run without it (only a consumption) |
| `LeaseGuarantees.RenewedExactlyWhenLevel` | crates/openwork-execution/src/store/mod.rs:687-718 | a heartbeat with any lease succeeds if and only if the term is allowed, the lease is the stored one in token, owner and revision and within its time, the clock is not behind the run, and the lease does not lag; it then returns the run's present record |
| `LeaseGuarantees.StoredLeaseIsRenewedUnlessItLags` | crates/openwork-execution/src/store/mod.rs:687-718 | for the stored lease within its time the heartbeat succeeds if and only if the lease does not lag behind its run |
| `LeaseGuarantees.LaggingHolderIsStuck` | crates/openwork-execution/src/store/mod.rs:1050-1075 | a holder whose lease lags, presenting the snapshot it was given, succeeds with no lease-bound operation and changes nothing; it can only ask whether it is to cancel |
| `LeaseGuarantees.LagBeginsAndEnds` | crates/openwork-execution/src/store/mod.rs:1366-1462 | for every operation in every valid state: a lease that is level comes to lag if and only if the operation consumes an approval of its run; a lag ends if and only if the holder moves the run or the lease is gone |
| `LeaseGuarantees.LagComesFromConsumption` | crates/openwork-execution/src/store/mod.rs:1366-1462 | in every history a lagging lease has lagged ever since a step that consumed an approval of its run |
| `Witnesses.LagIsReachable` | crates/openwork-execution/src/store/mod.rs:1423-1456 | a history of create, claim, wait under the lease, request, grant and consume that ends with a lagging lease |
| `Records.VerifyCancellation` | crates/openwork-execution/src/store/mod.rs:65-89 | evidence exists if and only if the result is valid, of this run, cancelled and cleaned up; it names that sandbox and carries the token and owner of the lease |
| `Guarantees.CancellationIsDecisive` | crates/openwork-execution/src/store/mod.rs:861-915 | after a cancel was answered as requested the run never succeeds: it stays leased under its intent or has stopped otherwise |
| `RunMovement.CancelledOnlyWithEvidence` | crates/openwork-execution/src/store/mod.rs:938-986 | a leased run becomes cancelled only by its holder, against a recorded intent, with such evidence |
| `Guarantees.RecoverFromEffect` | crates/openwork-execution/src/store/mod.rs:1000-1015 | the recovery loop recovers exactly a prefix of the remaining runs, in id order, and all of them exactly when it succeeds |
| `Guarantees.RecoveryIsExact` | crates/openwork-execution/src/store/mod.rs:988-1017 | recovery fails and releases a prefix of the expired runs, touches nothing else, and returns exactly the expired ids when it succeeds |
| `Guarantees.RecoveryLeavesNoExpiredLease` | crates/openwork-execution/src/store/mod.rs:988-1017 | after success no expired lease is left, exactly the returned runs are failed, and every other run is unchanged |
| `LeaseGuarantees.FailureIsAtomic` | crates/openwork-execution/src/store/mod.rs:325-1462 | a failing operation changes nothing, except that a mismatched consumption records one event and a failing recovery keeps its prefix |
| `ApprovalGuarantees.OneApprovalPerAction` | crates/openwork-execution/src/store/mod.rs:1239-1256 | an action id has at most one approval in the whole history |
| `ApprovalGuarantees.OneConsumptionPerWindow` | crates/openwork-execution/src/store/mod.rs:1476-1486 | two consumed approvals of a run are of different awaiting-approval windows |
| `ApprovalGuarantees.PassedWindowOnlyCloses` | crates/openwork-execution/src/store/mod.rs:1303-1305 | an approval whose run has moved since can only be denied or expire |
| `ApprovalGuarantees.ConsumptionMeansUnmoved` | crates/openwork-execution/src/store/mod.rs:1366-1380 | a consumption succeeds only if the run's record is the one it had whenever the approval existed |
| `ApprovalGuarantees.ClaimHasOneApproval` | crates/openwork-execution/src/store/mod.rs:1400-1422 | every claim matches exactly one consumed approval in action, run, hash and time |
| `ApprovalGuarantees.ConsumedApprovalHasOneClaim` | crates/openwork-execution/src/store/mod.rs:1452-1457 | every consumed approval matches exactly one claim, at that time and ever after |
| `ApprovalGuarantees.ClaimedBranchIsUnreachable` | crates/openwork-execution/src/store/mod.rs:1400-1403 | the refusal of a consumption because the action is already claimed cannot be reached |
| `ApprovalGuarantees.TwoDuplicateTestsSuffice` | crates/openwork-execution/src/store/mod.rs:1239-1256 | of the four duplicate tests of a new approval the claim test and the open-duplicate test never add anything |
| `ApprovalGuarantees.ReceiptScanIsExact` | crates/openwork-execution/src/store/mod.rs:599-633 | for a claimed receipt the scan fails exactly when the chain holds an execution event without metadata, and otherwise finds it exactly when it was recorded |
| `ApprovalGuarantees.SpoiledForever` | crates/openwork-execution/src/store/mod.rs:442-484 | once a run's chain holds an execution event without metadata, in every later state no receipt of that run is reconciled, whatever the receipt, actor, time and event |
| `Witnesses.SpoiledReceiptIsReachable` | crates/openwork-execution/src/store/mod.rs:410-440 | a history that claims an action and then appends such an event to its run |
| `RunMovement.EveryStoredReasonIsRedacted` | crates/openwork-execution/src/store/mod.rs:1181-1213 | no stored terminal reason holds anything the redactor would take out |
| `RunMovement.EveryApprovalReasonIsRedacted` | crates/openwork-execution/src/store/mod.rs:1216-1327 | no stored request or decision reason holds anything the redactor would take out |
| `ActionExecution.VerifiedMeansApproved` | crates/openwork-execution/src/action_executor.rs:30-52 | a verified action is exactly what one consumed approval was given for |
| `ClaimOrigins.OnlyConsumptionClaims` | crates/openwork-execution/src/store/mod.rs:1400-1462 | for every operation and state: a claim appears only by a successful consumption, with an action that hashes to its digest, and is the claim of just that action |
| `ClaimOrigins.ClaimHasOrigin` | crates/openwork-execution/src/store/mod.rs:1400-1462 | every claim of a history was left by such a step of it |
| `ClaimOrigins.VerifiedMeansConsumed` | crates/openwork-execution/src/action_executor.rs:30-52 | a verified action agrees in run, id and digest with the action in hand when its approval was consumed, and in every field unless the two bindings are a collision of the digest |
| `ClaimOrigins.ConsumedIsVerifiable` | crates/openwork-execution/src/action_executor.rs:30-52 | in every history the action of every successful consumption is verified with its claim in every later state |
| `ActionExecution.MockActionExecutor.Perform` | crates/openwork-execution/src/action_executor.rs:189-208 | receipts and answer are those of the executor function: performed once, recovered afterwards, refused for another binding |
| `ActionExecution.ExecuteWithAudit` | crates/openwork-execution/src/action_executor.rs:119-151 | the call's answer and its effect on executor and store, when nobody comes in between; it returns the receipt of its action if and only if the executor answered with just that one and the store recorded it now |
| `ActionExecution.PerformedAtMostOnce` | crates/openwork-execution/src/action_executor.rs:189-208 | in any interleaving of calls, retries and store operations an action is performed by at most one step |
| `ActionExecution.RetryRecovers` | crates/openwork-execution/src/action_executor.rs:189-208 | the executor never refuses a verified action, and a retry recovers its exact receipt |
| `ActionExecution.RecordedAtMostOnce` | crates/openwork-execution/src/action_executor.rs:138-149 | at most one step records an action's execution, so at most one call for it returns a receipt |
| `ActionExecution.SettlesExactly` | crates/openwork-execution/src/action_executor.rs:119-151 | in every interleaving a call that executed its action returns its receipt if and only if, as it settles, the run is unleased, its chain has no execution event without metadata and none of this action yet, and takes one more event |
| `ActionExecution.OkMeansPerformedOnce` | crates/openwork-execution/src/action_executor.rs:119-151 | a call that returns a receipt comes after the one step that performed its action |
| `ActionExecution.OneRecordInTheClaimedRun` | crates/openwork-execution/src/store/mod.rs:583-633 | at most one event records an action's execution, and it lies in its claim's run |
| `Worker.SingleRunWorker.FailClosed` | crates/openwork-worker/src/lib.rs:710-725 | a failure is stored and reported by one completion, or nothing was written; with a running lease that nobody hinders it works |
| `Worker.SingleRunWorker.FailAfterError` | crates/openwork-worker/src/lib.rs:736-746 | always an error, and nothing but a failure was written |
| `Worker.SingleRunWorker.Beat` | crates/openwork-worker/src/lib.rs:687-696 | after whatever others did, the answer is that of the store's heartbeat function for that lease in the state reached, and its success is noted |
| `Worker.SingleRunWorker.Supervise` | crates/openwork-worker/src/lib.rs:661-707 | asks the sandbox to cancel at most once, beats no more after a heartbeat has failed, then asks it to cancel and yields no result; a result means that every heartbeat succeeded |
| `Worker.SingleRunWorker.FinishExited` | crates/openwork-worker/src/lib.rs:580-642 | an end it reports is of an acceptable result, and a success if and only if the exit code is 0 and the provider asked for no failure, then with the artifacts scanned and recorded, and otherwise failed; the calls were one audit per event, the recording of a success, "sandbox destroyed" and the completion; with a lease that nobody hinders and a successful scan it does report one |
| `Worker.SingleRunWorker.FinishAfterIntent` | crates/openwork-worker/src/lib.rs:538-577 | under an intent a reported end is cancelled exactly for a cancelled sandbox and failed otherwise; without one it is timed out exactly for a timed-out sandbox, succeeded exactly for an exit code 0 without a failure, and failed otherwise; with exactly the calls of that case |
| `Worker.SingleRunWorker.Finish` | crates/openwork-worker/src/lib.rs:522-577 | the same with "sandbox created", "runtime started" and the question for an intent before it; a result of another run is failed closed |
| `Worker.SingleRunWorker.Execute` | crates/openwork-worker/src/lib.rs:445-519 | with any operations of others between its store calls: the store is where replaying all of them, the worker's own and the others', leads; a reported end is stored, terminal, without lease and the one run that the worker's own operations ended; an error means that they ended none, or one as failed; a success rests on a valid, clean, complete result of this run with exit code 0, every line of which was decoded, into a stream without a provider failure, and on its stored artifacts; cancelled and timed out rest on such sandbox results; the sandbox is asked to cancel at most once; the status reported is exactly the one that the answers to its questions for an intent and the sandbox's result demand, and its own calls are exactly the course that goes with it; where nobody hinders a current lease and the result is usable, the run does end so |
| `Worker.SingleRunWorker.ExecuteInSandbox` | crates/openwork-worker/src/lib.rs:505-519 | the heartbeats and the finish, and no other calls, lead to the end that the result and the intent demand |
| `Worker.CompletedMeans` | crates/openwork-worker/src/lib.rs:604-612 | the accepted stream of an exited process ends in a completion if and only if the exit code is 0 and the provider asked for no failure |
| `StoreActors.PlayedFollows` | crates/openwork-execution/src/store/mod.rs:635-641 | replaying operations of one component and of others on a valid store keeps the invariant and only moves the state forward |
| `SandboxProtocol.EveryInterleavingIsSafe` | crates/openwork-sandbox/src/lib.rs:112-328 | from the registration on, in every interleaving of start, container, monitor, any number of cancel calls, executor, guard and cleanup call: the lock is exclusive, the flag, the cause of the stop and the answers agree, and whoever reports a disposal is right about the container and the directory |
| `SandboxAnswers.EveryAnswerIsEarned` | crates/openwork-sandbox/src/lib.rs:276-328 | in every safe state the monitor answers at a step if and only if that step ends its watch, with the answer that the step found out about the container itself, and an answer never changes |
| `SandboxAnswers.AnswerHasItsStep` | crates/openwork-sandbox/src/lib.rs:276-328 | in every interleaving the answer was earned by one step: exited with the container's exit code by an inspection that saw it stopped with memory left, out of memory by one that saw that, timed out by a successful kill at the deadline, cancelled by the flag, failed otherwise |
| `SandboxAnswers.EveryAnswerIsTrue` | crates/openwork-sandbox/src/lib.rs:309-319 | in every state of every interleaving: an answer of an exit is the container's exit code, and it did not run out of memory; out of memory is its own state; no other answer has an exit code |
| `SandboxAnswers.FinalExitIsTheContainers` | crates/openwork-sandbox/src/lib.rs:156-186 | in every interleaving a result has an exit code if and only if it says exited, and then it is the container's, stopped with memory left and by no confirmed cancel |
| `SandboxAnswers.ResultHasItsStep` | crates/openwork-sandbox/src/lib.rs:156-172 | in every interleaving the result was made by closing the directory: its cleanup is a success if and only if removal and closing were, and it is the monitor's answer unless the paths were not collected or a cancelled run is not clean, which is a failure |
| `SandboxAnswers.CallIsAnsweredByItsKill` | crates/openwork-sandbox/src/lib.rs:364-396 | in every interleaving a cancel call answers success exactly as the engine did to its own kill, or because the flag was already set |
| `SandboxAnswers.ContainerStepIsExact` | crates/openwork-sandbox/src/lib.rs:187-337 | in any state, for every step: the container starts, stops and changes only by its start, its own end or a kill or removal that works, with that exit code and cause; the monitor kills at the deadline and when it gives up |
| `SandboxAnswers.DisposalStepIsExact` | crates/openwork-sandbox/src/lib.rs:112-186 | in any state, for every step: the container exists until a removal takes it, the temporary directory until closing does, the registration until the executor or a cleanup call does |
| `SandboxProtocol.ConfirmedCancelIsNeverMisreported` | crates/openwork-sandbox/src/lib.rs:276-328 | a container stopped by a confirmed cancel is never reported as exited, out of memory or timed out |
| `SandboxProtocol.ConfirmedCancelDecides` | crates/openwork-sandbox/src/lib.rs:192-287 | a cancel confirmed before the monitor reads the flag, also before the start, makes it answer cancelled, whatever else happens, unless the start fails |
| `SandboxProtocol.SuccessfulCancelStopped` | crates/openwork-sandbox/src/lib.rs:364-396 | a successful cancel has stopped the container, unless a kill of a container not yet started was reported as successful; monitor and cancel calls never hold the lock together |
| `SandboxProtocol.EarlyKillWasReported` | crates/openwork-sandbox/src/lib.rs:138-197 | that exception holds in a state if and only if such a kill is among the steps before it |
| `SandboxProtocol.RunningAfterSuccessfulCancel` | crates/openwork-sandbox/src/lib.rs:138-197 | an interleaving in which a cancel has succeeded and the container is started after it and runs |
| `SandboxProtocol.GuardRemovesOrTriesAgain` | crates/openwork-sandbox/src/lib.rs:484-514 | when the executor is done the container is out of the registry, and it is gone or its removal was tried twice; a cleanup reported as successful means that container and directory are gone |
| `SandboxProtocol.DisposalIsForever` | crates/openwork-sandbox/src/lib.rs:112-186 | along every interleaving what is gone stays gone, a confirmation stays, and a result once settled does not change |
| `SandboxProtocol.SuccessfulCleanupRemoved` | crates/openwork-sandbox/src/lib.rs:398-416 | a cleanup call that answers success has removed the container, for good, at whatever point of an execution it came |
| `SandboxProtocol.Conclude` | crates/openwork-sandbox/src/lib.rs:156-172 | the final termination, exit code and cleanup for any outcome of removal, path collection and directory removal; cancelled if and only if the monitor said so and all three worked, otherwise the monitor's word or failed |
| `SandboxProtocol.FinalCancelledMeansDisposed` | crates/openwork-sandbox/src/lib.rs:156-172 | from the moment a result says cancelled, in every later state of every interleaving: a kill was confirmed, the container is stopped and does not exist, and neither does the temporary directory |
| `SandboxProtocol.EvidenceMeansDisposed` | crates/openwork-sandbox/src/lib.rs:156-172 | a valid result is evidence of cancellation for its lease if and only if it says cancelled, and then its sandbox is disposed of |
| `CaptureBudget.Budget.Take` | crates/openwork-sandbox/src/cli.rs:275-284 | keeps no more than is left, reports truncation, and truncates only when nothing is left |
| `CaptureBudget.Capture` | crates/openwork-sandbox/src/cli.rs:252-288 | for every interleaving of the two readers: retained plus remaining is the limit, retained is the smaller of limit and total, each buffer is a prefix of its stream, truncated exactly when more was read than fits |
| `RuntimeDecoding.EventFactory.Event` | crates/openwork-runtime/src/task/mod.rs:308-332 | numbers the next event, or refuses it without effect exactly when terminal, exhausted or out of bounds |
| `RuntimeDecoding.EventFactory.Serve` | crates/openwork-runtime/src/task/mod.rs:334-349 | the same, and a failure makes the stream terminal |
| `RuntimeDecoding.EventFactory.Finish` | crates/openwork-runtime/src/task/mod.rs:364-382 | the exit event of the process, refused exactly when exhausted or out of bounds, or none after a provider failure |
| `RuntimeDecoding.Take` | crates/openwork-runtime/src/task/mod.rs:220-269 | one request enters the stream in step with the factory if and only if a stream can be made of all requests so far and this one |
| `RuntimeDecoding.TakeExit` | crates/openwork-runtime/src/task/mod.rs:198-211 | accepts if and only if the exit fits; then the stream ends in one terminal event, a completion exactly for exit code 0 without provider failure |
| `RuntimeDecoding.DecodeSandboxResult` | crates/openwork-runtime/src/task/mod.rs:173-211 | for any provider decoder that emits through the factory and any output: accepted if and only if the result is valid, clean and complete, every line was decoded, there are at most 4096 requests, each within its bounds, none a process end and none after a failure, and an exited process can report its exit; the accepted stream is numbered 1 to n and consists of exactly the requests and the exit event; no refusal blames the factory |
| `SecretWords.AssignmentSearchIsComplete` | crates/openwork-core/src/lib.rs:195-235 | the offset-skipping search finds a secret assignment exactly when the word has one |
| `SecretWords.SearchKeys` | crates/openwork-core/src/lib.rs:213-233 | the nested loops find an assignment if and only if one of the keys is assigned in the word, and count the covered words by where the separator of the first assignment of the first such key stands |
| `SecretWords.TailFromIsExact` | crates/openwork-core/src/lib.rs:213-233 | the search for one key finds its first assignment from the offset on, skipping none, and counts one word more for "authorization" and one more if nothing but padding stands behind the separator |
| `SecretWords.AssignmentCovers` | crates/openwork-core/src/lib.rs:195-235 | the words that any secret assignment covers, counted by the place of the separator of the assignment that decides |
| `SecretReading.KeyTablesAgree` | crates/openwork-core/src/lib.rs:195-258 | a word is a free-standing key if and only if its letters and digits spell a key that can be assigned, and the authorization key if and only if they spell that |
| `SecretReading.SeparatorMeaning` | crates/openwork-core/src/lib.rs:102-120 | a word is a free-standing separator if and only if it is one = or : between quotes and punctuation |
| `SecretReading.WordKeysAssign` | crates/openwork-core/src/lib.rs:260-283 | the table of upper-case keys masks nothing that the assignments do not |
| `SecretReading.TextKeysAreSecretKeys` | crates/openwork-core/src/lib.rs:160-193 | every key of texts is a secret key of structured data |
| `SecretReading.RedactionIsReading` | crates/openwork-core/src/lib.rs:102-136 | redaction of any text is its reading group by group: a free-standing key with separator and value becomes one mask, an assignment with the words it covers one mask each, any other word stays unless it is a token |
| `SecretReading.SecretIsMaskedInText` | crates/openwork-core/src/lib.rs:102-136 | in any text, wherever a group begins, the output goes on with what is written for that group and then with the reading of the words behind it |
| `SecretReading.EveryWordIsInAGroup` | crates/openwork-core/src/lib.rs:102-136 | every word of a text is read in the group that begins last at or before it |
| `SecretReading.OpenAuthorization` | crates/openwork-core/src/lib.rs:223-228 | a word that assigns "authorization" with nothing but padding behind the separator is masked with the next two words |
| `SecretReading.ClosedAuthorization` | crates/openwork-core/src/lib.rs:223-228 | with a value behind the separator it is masked with the next word |
| `SecretReading.OpenAssignment` | crates/openwork-core/src/lib.rs:223-228 | a word that assigns another key with nothing but padding behind the separator is masked with the next word |
| `SecretReading.ClosedAssignment` | crates/openwork-core/src/lib.rs:223-228 | with a value behind the separator it is masked, and the next word is read on its own |
| `SecretReading.SeparatedAuthorization` | crates/openwork-core/src/lib.rs:114-124 | "authorization", a separator and both words of its value become one mask |
| `SecretReading.SeparatedKey` | crates/openwork-core/src/lib.rs:114-124 | another key, a separator and one word become one mask |
| `TextRedaction.RedactByIndex` | crates/openwork-core/src/lib.rs:102-136 | the index loop with lookahead computes the redaction by words; its output is settled and a fixpoint |
| `TextRedaction.KeptExactlyWhenSettled` | crates/openwork-core/src/lib.rs:102-136 | a text is left alone exactly when it is single-spaced and none of its words is secret |
| `TextRedaction.RedactTextIsIdempotent` | crates/openwork-core/src/lib.rs:102-136 | redacting any text twice is redacting it once |
| `TextRedaction.RedactedTextHasNoSecret` | crates/openwork-core/src/lib.rs:102-136 | redacted text has no secret assignment, no token prefix and no secret key before a separator |
| `TextRedaction.SecretsDoNotShow` | crates/openwork-core/src/lib.rs:102-136 | for every classifier: word lists that differ only in values of secrets, and elsewhere in words that are read alike, are redacted to the same; right behind a key a value may not be exchanged for a separator |
| `TextRedaction.SecretsDoNotShowInText` | crates/openwork-core/src/lib.rs:102-136 | the same for the redactor of the source and any two texts |
| `TextRedaction.SeparatorShowsInSource` | crates/openwork-core/src/lib.rs:102-136 | the exception occurs: "token: =" comes out as one word, and "token:" before any word that is no separator as two |
| `JsonRedaction.RedactedIsClean` | crates/openwork-core/src/lib.rs:139-158 | redacted data is clean at every depth |
| `JsonRedaction.KeptExactlyWhenClean` | crates/openwork-core/src/lib.rs:139-193 | data is left alone exactly when it is clean |
| `JsonRedaction.RedactJsonIsIdempotent` | crates/openwork-core/src/lib.rs:139-158 | redacting data twice is redacting it once |
| `JsonRedaction.OpenPlacesAreKept` | crates/openwork-core/src/lib.rs:139-158 | wherever no secret key leads, redacted data has the same scalars, as many elements and the same keys, and the redacted texts |
| `JsonRedaction.SecretPlacesAreMasked` | crates/openwork-core/src/lib.rs:139-158 | where a secret key leads, there is the mask, and nothing below it |
| `AuditWire.HyphenatedIsInjective` | crates/openwork-execution/src/lib.rs:79-82 | different identifiers have different hyphenated texts |
| `AuditWire.HexTextIsKept` | crates/openwork-core/src/lib.rs:102-136 | digests and hyphenated identifiers pass the redactor unchanged |
| `AuditWire.RenderedIsKept` | crates/openwork-execution/src/audit/mod.rs:70-117 | redaction loses nothing of any metadata the store writes |
| `AuditWire.StoredEventsRoundTrip` | crates/openwork-execution/src/lib.rs:595-619 | every event of every reachable state is accepted back by the deserializer, unchanged and with its hash |
| `AuditWire.AcceptedIsClean` | crates/openwork-execution/src/lib.rs:475-483 | what the deserializer accepts is redacted and hashes to its hash |
| `AuditWire.StoredScanIsExact` | crates/openwork-execution/src/store/mod.rs:599-633 | comparing stored texts decides for every chain what comparing identifiers and digests decides |
| `AuditWire.WireIsInjective` | crates/openwork-execution/src/lib.rs:1793-1842 | different event bodies have different stored forms |
| `AuditWire.StoredChainsAreTamperEvident` | crates/openwork-execution/src/lib.rs:518-577 | tamper evidence carries over to events hashed in their stored form |
| `JsonText.ReadsBack` | crates/openwork-execution/src/lib.rs:1793-1815 | from a text that begins with printed data the data and what follows it can be read back in one way only: strings by their escapes, numbers by their digits, arrays and objects by their brackets |
| `JsonText.PrintIsInjective` | crates/openwork-execution/src/lib.rs:1793-1815 | different data is printed as different text |
| `AuditText.KindNamesDiffer` | crates/openwork-execution/src/lib.rs:1817-1842 | different event types have different names |
| `AuditText.EventTextIsInjective` | crates/openwork-execution/src/lib.rs:1793-1842 | different event bodies are hashed from different texts, given that different times have different texts |
| `AuditText.StoredTextRoundTrips` | crates/openwork-execution/src/lib.rs:486-619 | every event of every reachable state, written out as the text it is stored as, is accepted back from that text, unchanged and with its hash, given that different times have different texts |
| `AuditText.HashedTextIsTamperEvident` | crates/openwork-execution/src/lib.rs:518-577 | two verifying chains with the same head hash are equal unless the digest collides on two different texts of theirs |
| `PromptHandOff.InMemoryPromptDelivery.RegisterPrompt` | crates/openwork-control-api/src/lib.rs:367-404 | entries and answer of the registration function, see `RegisterIsExact`; stays within capacity and keeps only matching bytes |
| `PromptHandOff.InMemoryPromptDelivery.TakePrompt` | crates/openwork-control-api/src/lib.rs:408-433 | entries and answer of the delivery function, see `TakeIsExact`; a delivered prompt hashes to the requested digest and is gone |
| `PromptHandOff.InMemoryPromptDelivery.PurgeExpired` | crates/openwork-control-api/src/lib.rs:435-446 | an entry stays, unchanged, if and only if it has not expired; the answer is the number of the expired ones |
| `PromptTerms.RegisterIsExact` | crates/openwork-control-api/src/lib.rs:367-404 | for any entries: a prompt is taken in if and only if it is within the bounds, hashes to its digest, its term can be told, no live prompt of its run is there and there is room among the live ones; it is stored until now plus the broker's term, which is answered, and beside it just the live ones stay; each refusal has its cause |
| `PromptTerms.TakeIsExact` | crates/openwork-control-api/src/lib.rs:408-433 | for any entries: a prompt is given out if and only if it is live and the digest is its own; it is then gone, and the other live ones stay; each refusal has its cause |
| `PromptTerms.RegisteredIsTakenOnce` | crates/openwork-control-api/src/lib.rs:367-433 | what is registered can be taken with its digest at any time before the term ends, once, and not after |
| `PromptTerms.EveryPromptHasItsTerm` | crates/openwork-control-api/src/lib.rs:367-404 | in every interleaving every prompt in the broker was registered by the handler for its run with the bytes that came with it, and expires the broker's term after that step |
| `PromptTerms.DeliveredAsRegistered` | crates/openwork-control-api/src/worker_runtime.rs:302-332 | in every interleaving a worker is given the very bytes that the handler registered for the run, within that term |
| `PromptHandOff.CreateRunWithPrompt` | crates/openwork-control-api/src/lib.rs:1325-1357 | with any operations of others on the store in between: a run it reports is stored with its prompt in the broker; an error retains no new bytes and leaves the store as it was, or with the run created: then the run is cancelled if and only if, in the state the others left, it waits, is not leased and its chain takes an event at that time, and otherwise no run changes |
| `PromptHandOff.ClaimWithPrompt` | crates/openwork-control-api/src/worker_runtime.rs:302-332 | with any operations of others on the store in between: a lease is returned exactly when the broker delivers, stored and with bytes that hash to its run's digest; without a prompt the run is failed and released if and only if, in the state the others left, the lease is held at the run's revision and the chain takes an event at that time, and otherwise the answer is an error and the store is as the others left it |
| `PromptHandOff.CancelsOrLeaves` | crates/openwork-execution/src/store/mod.rs:861-915 | in every valid state, for every run and time: a cancel request cancels the run if and only if it waits, is not leased, the last event of its chain is not later and the chain has room; otherwise it changes no run |
| `PromptHandOff.FailsAndReleases` | crates/openwork-execution/src/store/mod.rs:751-786 | in every valid state, for every lease and time: failing the run works if and only if the lease is held, at the run's revision, and its chain takes the event; it then releases the run |
| `PromptHandOff.EveryInterleavingIsOk` | crates/openwork-control-api/src/lib.rs:281-335 | the invariant of store, broker and gate holds in every interleaving of handlers, gated workers and other actors |
| `PromptHandOff.BrokerStaysBounded` | crates/openwork-control-api/src/lib.rs:384-404 | never more prompts than the capacity, never bytes that do not hash to their digest |
| `PromptHandOff.DeliveredPromptMatches` | crates/openwork-control-api/src/lib.rs:408-433 | a delivered prompt is unexpired and hashes to the digest of the leased run |
| `PromptHandOff.DeliveredAtMostOnce` | crates/openwork-control-api/src/lib.rs:408-433 | a run's prompt is delivered by at most one step |
| `PromptRefusals.HandlerCancelIsExact` | crates/openwork-control-api/src/lib.rs:1343-1354 | in every interleaving the handler's cancel after a refused registration cancels the run if and only if a cancel works in the state reached, and otherwise changes no run |
| `PromptRefusals.LeftQueued` | crates/openwork-control-api/src/lib.rs:1343-1354 | in every interleaving a run that was refused its prompt and is still queued, its cancel done, goes back to a cancel step of the handler that found it queued and whose time lay before the last event of its chain, or found the chain full |
| `PromptRefusals.QueuedStaysQueued` | crates/openwork-control-api/src/lib.rs:1343-1354 | the converse for that step: a queued run stays queued if and only if its chain does not take the event |
| `PromptRefusals.GateClosesTheGap` | crates/openwork-control-api/src/lib.rs:281-335 | when a handler's run is claimed its prompt was published, or it was refused and the cancel after it came to nothing for just that reason |
| `PromptRefusals.RefusedIsNeverDelivered` | crates/openwork-control-api/src/lib.rs:408-433 | only published prompts are delivered, never to a run that was refused its own |
| `PromptRefusals.WorkerFailIsExact` | crates/openwork-control-api/src/worker_runtime.rs:316-327 | in every interleaving a worker fails and releases a run without a prompt if and only if it is still leased at the revision of the claim, the clock is within the lease and the chain takes the event; otherwise nothing changes, and the lease stays if it was there |
| `PromptWitnesses.QueuedWithoutPromptIsReachable` | crates/openwork-control-api/src/lib.rs:1343-1354 | an interleaving that leaves a run queued without a prompt although the handler's clock did not go back: somebody wrote to its chain with a later clock |
| `PromptWitnesses.LeaseWithoutPromptIsReachable` | crates/openwork-control-api/src/worker_runtime.rs:316-327 | the same interleaving taken on: that run is claimed and stays leased although it is failed within its lease |
| `PromptHandOff.PublishedPromptIsDelivered` | crates/openwork-control-api/src/worker_runtime.rs:302-332 | a claimed run whose prompt was published gets it, unless its time had come at this or an earlier step of the broker |
| `Installer.InstallExecutor.FindMissing` | crates/openwork-installer/src/lib.rs:408-415 | the ancestor walk finds exactly the missing directories, deepest first |
| `Installer.InstallExecutor.ExecuteDirectory` | crates/openwork-installer/src/lib.rs:383-429 | tree, tracked changes and answer of the directory function |
| `Installer.InstallExecutor.RollbackFailure` | crates/openwork-installer/src/lib.rs:437-480 | the pop loop leaves the tree and the warnings of undoing from the newest change |
| `Installer.InstallExecutor.Run` | crates/openwork-installer/src/lib.rs:117-213 | a preview touches nothing; an execution ends with the tree and report of the execution function |
| `InstallerCompletion.DirectoryStepIsExact` | crates/openwork-installer/src/lib.rs:383-429 | over any tree: a directory step succeeds if and only if it carries nothing else, no file is on the way to the path, and the directory is there, which is answered as preserved, or the system makes the missing ones |
| `InstallerCompletion.DownloadStepIsExact` | crates/openwork-installer/src/lib.rs:215-249 | over any tree: a download succeeds if and only if it is to the step's path, the path is new and below no file, and the content was fetched; the file is tracked |
| `InstallerCompletion.CommandStepIsExact` | crates/openwork-installer/src/lib.rs:251-288 | a command step succeeds if and only if it is for the step's own program and the command does; what it did to the tree stays either way and is not tracked |
| `InstallerCompletion.StepInstalls` | crates/openwork-installer/src/lib.rs:215-429 | a step that succeeds leaves what was there unchanged and adds its directory or file with the fetched content, missing directories on the way to it, and nothing else |
| `InstallerCompletion.CompletedPlanIsInstalled` | crates/openwork-installer/src/lib.rs:158-213 | a plan without commands that completes has installed every directory and every file with its content over the initial tree, nothing else but directories on the way to them, and is reported without partial state |
| `InstallerCompletion.ReportIsExact` | crates/openwork-installer/src/lib.rs:158-213 | for every plan and system: completed if and only if every step succeeded and none was cancelled before; otherwise partial state is admitted if and only if a command was begun or something could not be undone |
| `InstallerRollback.TrackedRollsBack` | crates/openwork-installer/src/lib.rs:437-480 | changes tracked along a way back are undone without a warning to the initial tree |
| `InstallerRollback.RollbackRestoresExactlyWhenTracked` | crates/openwork-installer/src/lib.rs:158-249 | a failure or cancellation before any command leaves exactly the initial tree if and only if no executed step left anything untracked; then there are no warnings and no partial state |
| `InstallerRollback.UnplannedParentStays` | crates/openwork-installer/src/lib.rs:215-249 | a plan for which the tree is not restored and the report is silent |
| `InstallerReport.WarnsExactlyWhenBlocked` | crates/openwork-installer/src/lib.rs:437-480 | undoing any ordered changes that are in place has a warning if and only if something untracked lies strictly below a tracked directory |
| `InstallerReport.PartialStateIsExact` | crates/openwork-installer/src/lib.rs:437-480 | for every plan and system that fails before a command: the report admits partial state if and only if a leftover lies strictly below a tracked directory, so it is silent about a tree that was not restored exactly when some step left something untracked and none of it lies there |
| `InstallerPlans.CoveredRollBack` | crates/openwork-installer/src/lib.rs:158-249 | if every download before the commands has its parent in the initial tree or on the way to a directory created earlier, every failure before a command restores the tree without a warning, given that failing operations leave nothing but parent directories |
| `InstallerPlans.AlwaysRestoredExactlyWhenCovered` | crates/openwork-installer/src/lib.rs:158-249 | for a plan that completes when nothing goes wrong: every such failure restores the tree if and only if every download is covered in this way |
| `InstallerPlans.PlannedParentsRollBack` | crates/openwork-installer/src/lib.rs:158-249 | a plan that creates every download's parent first is covered over every tree, and so is rolled back without a trace |
| `InstallerPlans.ManagedRuntimePlan` | crates/openwork-installer/src/lib.rs:330-381 | the given directories, then the downloads, then the commands, each in the order given and with nothing else in its step; any other step creates the parent of the download right behind it, which no earlier step creates; so every download's parent is created before it |

## Left out

- The Postgres store: not part of this model; the in-memory store implements the same traits.
- HTTP routing, authentication, schema validation, connectors, command line, user interface, platform probing: plumbing over libraries.
- Provider adapters: only that their decoders emit through the event factory; what a decoder makes of each line is an input, and so is the size bound of payloads.
- SHA-256, UUID generation, timestamp parsing and formatting, UTF-8: opaque digests, abstract identifiers, integers and characters; that different times have different texts is a hypothesis.
- Lock poisoning, thread panics, memory zeroing of prompts: a lock is always acquired.
- Capability manifests, policy table, runtime selection, identifier and path validators: settled by reading one branch.
- Error messages: errors are modelled by their code; the decoder's refusals by their cause.
- Worker.SingleRunWorker.Execute: the checks of task and environment, sandbox health, adapter preparation and the artifact scan are inputs; the clock is read before every store call, where the code sometimes reuses an earlier reading, and clock values are unconstrained, so every such reuse is covered; that an end is reached is stated for a worker that nobody hinders, since any other actor may take the lease away.
- Chronicle.EveryChainIsItsStory: what an event says is its kind, actor, time and detail; its identifier, a fresh argument of the call, and its place and hashes, which `EveryChainVerifies` is about, are not repeated.
- InstallerCompletion.CompletedPlanIsInstalled: for plans without commands, since a command may do anything to the tree.
- SandboxProtocol.EveryInterleavingIsSafe: the deadline and the attachment are nondeterministic steps; container creation, a start command that cannot be run at all (which ends the execution without a result) and log collection are not modelled; the registry holds one execution.
- SandboxProtocol.Conclude: stdout, stderr and timestamps of the result are not computed here.
- CaptureBudget.Capture: read errors of a pipe are not modelled.
- RuntimeDecoding.DecodeSandboxResult: schema version, timestamps and vendor metadata of events are not modelled; splitting output into lines is an input.
- Installer.InstallExecutor.Run: the list of step results and their wording is not modelled; paths are absolute and there are no links; rollback removals fail only for a non-empty directory or a wrong kind of node.
- PromptHandOff.EveryInterleavingIsOk: workspace resolution and file materialisation before the gate are not modelled.
- AuditWire.StoredEventsRoundTrip: on data; `StoredTextRoundTrips` carries it to text, where reading is the inverse of writing and the grammar of other texts is not modelled.
- InstallerPlans.AlwaysRestoredExactlyWhenCovered: supposes that the plan completes when nothing goes wrong, because an uncovered download that is never reached harms nothing; the other direction, `CoveredRollBack`, supposes nothing of the kind.
- ExecutionStore.InMemoryExecutionStore.CreateRun: workspace paths are texts; only emptiness is checked.
