/** How long the broker keeps a prompt, whom it gives it to, and what it answers otherwise. */
module PromptTerms {
  import opened Records
  import opened AuditChain
  import opened StoreState
  import opened History
  import opened PromptHandOff

  /** The prompt is there and its time has not come. */
  predicate IsLive(entries: Entries, id: RunId, now: Time) {
    id in entries && now < entries[id].expiresAt
  }

  ghost function LiveRuns(entries: Entries, now: Time): set<RunId> {
    set id | id in entries && now < entries[id].expiresAt
  }

  /** The bytes are within the bounds, match their digest, and their term can be told. */
  predicate Admits(b: Broker, expected: Digest, bytes: Bytes, now: Time) {
    b.capacity > 0 && |bytes| <= b.maxBytes && b.sha256(bytes) == expected && now + b.ttl <= MAX_TIME
  }

  /** Both hold the same of every other run. */
  ghost predicate SameOfOthers(entries: Entries, entries': Entries, id: RunId) {
    forall x | x != id :: (x in entries' <==> x in entries) && (x in entries ==> entries'[x] == entries[x])
  }

  lemma {:induction false} PurgedIsLive(entries: Entries, now: Time)
    ensures forall id :: id in Purged(entries, now) <==> IsLive(entries, id, now)
    ensures |Purged(entries, now)| == |LiveRuns(entries, now)|
  {
    assert Purged(entries, now).Keys == LiveRuns(entries, now);
    assert |Purged(entries, now)| == |Purged(entries, now).Keys|;
  }

  /** A prompt is taken in exactly when it is admitted, no live one of its run is there and there is room among the live
      ones; it then stays for the broker's term from now on. Only live ones are kept beside it. */
  lemma {:induction false} RegisterIsExact(b: Broker, entries: Entries, id: RunId, expected: Digest, bytes: Bytes,
                                           now: Time)
    ensures var (entries', r) := Register(b, entries, id, expected, bytes, now);
            && (r.Done? <==> Admits(b, expected, bytes, now) && !IsLive(entries, id, now)
                             && |LiveRuns(entries, now)| < b.capacity)
            && (r.Done? ==> && r.value == now + b.ttl && id in entries'
                            && entries'[id] == StoredPrompt(expected, now + b.ttl, bytes)
                            && SameOfOthers(Purged(entries, now), entries', id))
            && (r.Refused? ==> entries' == if Admits(b, expected, bytes, now) then Purged(entries, now) else entries)
            && (r == Refused(DuplicateRun) <==> Admits(b, expected, bytes, now) && IsLive(entries, id, now))
            && (r == Refused(DigestMismatch) <==>
                b.capacity > 0 && |bytes| <= b.maxBytes && b.sha256(bytes) != expected)
  {
    PurgedIsLive(entries, now);
  }

  /** A prompt is given out exactly when it is live and the digest is its own, and is then gone; the others stay as long
      as they live. */
  lemma {:induction false} TakeIsExact(entries: Entries, id: RunId, expected: Digest, now: Time)
    ensures var (entries', r) := Take(entries, id, expected, now);
            && (r.Done? <==> IsLive(entries, id, now) && entries[id].digest == expected)
            && (r.Done? ==> r.value == entries[id].bytes && id !in entries'
                            && SameOfOthers(Purged(entries, now), entries', id))
            && (r.Refused? ==> entries' == Purged(entries, now))
            && (r == Refused(Unavailable) <==> !IsLive(entries, id, now))
            && (r == Refused(DigestMismatch) <==> IsLive(entries, id, now) && entries[id].digest != expected)
  {
  }

  /** What is registered can be taken with its digest until its term ends, once, and not after. */
  lemma {:induction false} RegisteredIsTakenOnce(b: Broker, entries: Entries, id: RunId, expected: Digest, bytes: Bytes,
                                                 now: Time, later: Time, last: Time)
    requires Register(b, entries, id, expected, bytes, now).1.Done?
    ensures var kept := Register(b, entries, id, expected, bytes, now).0;
            && (later < now + b.ttl ==> Take(kept, id, expected, later).1 == Done(bytes))
            && (now + b.ttl <= later ==> Take(kept, id, expected, later).1 == Refused(Unavailable))
            && (later < now + b.ttl ==>
                  Take(Take(kept, id, expected, later).0, id, expected, last).1 == Refused(Unavailable))
  {
    hide Take, Register;
    RegisterIsExact(b, entries, id, expected, bytes, now);
    var kept := Register(b, entries, id, expected, bytes, now).0;
    TakeIsExact(kept, id, expected, later);
    TakeIsExact(Take(kept, id, expected, later).0, id, expected, last);
  }

  // ---------------------------------------------------------------- all interleavings

  /** The handler registers this prompt of the run at that step. */
  ghost predicate Registers(b: Broker, w: World, step: Step, id: RunId, prompt: StoredPrompt) {
    && step.HandlerRegisters? && w.section.Created? && w.section.run.id == id
    && step.now + b.ttl <= MAX_TIME
    && prompt == StoredPrompt(w.section.run.promptSha256, step.now + b.ttl, w.section.bytes)
  }

  lemma {:induction false} PromptStep(h: Hashes, b: Broker, w: World, step: Step, id: RunId)
    requires Enabled(b, w, step) && id in After(h, b, w, step).prompts
    ensures var prompt := After(h, b, w, step).prompts[id];
            (id in w.prompts && w.prompts[id] == prompt) || Registers(b, w, step, id, prompt)
  {
    hide Next, CreateRun, ClaimNextRun, StoreOp, Register, Take;
    if step.HandlerRegisters? {
      RegisterIsExact(b, w.prompts, w.section.run.id, w.section.run.promptSha256, w.section.bytes, step.now);
    } else if step.WorkerTakes? {
      TakeIsExact(w.prompts, w.section.lease.run.id, w.section.lease.run.promptSha256, w.section.now);
    }
  }

  /** In every interleaving every prompt in the broker was registered by the handler for its run, with the bytes that
      came with it, and its term runs from that step. */
  lemma {:induction false} EveryPromptHasItsTerm(h: Hashes, b: Broker, t: Interleaving, i: nat, id: RunId)
    returns (j: nat)
    requires t.IsRun(h, b) && i < |t.worlds| && id in t.worlds[i].prompts
    ensures j < i && Registers(b, t.worlds[j], t.steps[j], id, t.worlds[i].prompts[id])
  {
    hide After;
    assert t.StepAt(h, b, i - 1);
    PromptStep(h, b, t.worlds[i - 1], t.steps[i - 1], id);
    j := i - 1;
    if !Registers(b, t.worlds[j], t.steps[j], id, t.worlds[i].prompts[id]) {
      j := EveryPromptHasItsTerm(h, b, t, i - 1, id);
    }
  }

  /** A worker is given the very bytes that the handler registered for the run, within their term. */
  lemma {:induction false} DeliveredAsRegistered(h: Hashes, b: Broker, t: Interleaving, i: nat) returns (j: nat)
    requires t.IsRun(h, b) && i < |t.steps| && Delivers(t, i)
    ensures var lease := t.worlds[i].section.lease;
            && j < i && t.steps[j].HandlerRegisters? && t.worlds[j].section.Created?
            && t.worlds[j].section.run.id == lease.run.id
            && t.worlds[i].section.now < t.steps[j].now + b.ttl
            && Take(t.worlds[i].prompts, lease.run.id, lease.run.promptSha256, t.worlds[i].section.now).1
               == Done(t.worlds[j].section.bytes)
  {
    hide Take;
    var w := t.worlds[i];
    TakeIsExact(w.prompts, w.section.lease.run.id, w.section.lease.run.promptSha256, w.section.now);
    j := EveryPromptHasItsTerm(h, b, t, i, w.section.lease.run.id);
  }
}
