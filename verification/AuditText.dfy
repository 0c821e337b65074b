/** An audit event as text: the JSON array that is hashed and the JSON object that is stored. */
module AuditText {
  import opened Prelude
  import opened Records
  import opened AuditChain
  import opened JsonRedaction
  import opened JsonText
  import opened AuditWire
  import opened History

  /** `audit_event_type_name`. */
  function KindName(kind: EventKind): string {
    match kind
    case RunCreated => "run_created"
    case RuntimeSelected => "runtime_selected"
    case SandboxCreated => "sandbox_created"
    case ActionRequested => "action_requested"
    case PolicyAllowed => "policy_allowed"
    case PolicyDenied => "policy_denied"
    case ApprovalRequested => "approval_requested"
    case ApprovalApproved => "approval_approved"
    case ApprovalDenied => "approval_denied"
    case ApprovalExpired => "approval_expired"
    case ApprovalConsumed => "approval_consumed"
    case ActionExecuted => "action_executed"
    case RuntimeStarted => "runtime_started"
    case RuntimeOutput => "runtime_output"
    case ArtifactCreated => "artifact_created"
    case RuntimeCompleted => "runtime_completed"
    case SandboxDestroyed => "sandbox_destroyed"
    case RunCompleted => "run_completed"
    case RunFailed => "run_failed"
    case ApprovalBindingMismatch => "approval_binding_mismatch"
    case CancelRequestRecorded => "cancel_requested"
    case CancelConfirmed => "cancel_confirmed"
  }

  lemma {:induction false} KindNamesDiffer(a: EventKind, b: EventKind)
    requires KindName(a) == KindName(b)
    ensures a == b
  {
    var x, y := KindName(a), KindName(b);
    assert |x| == |y| >= 10 && x[0] == y[0] && x[1] == y[1] && x[7] == y[7] && x[9] == y[9];
  }

  const BINDING_VERSION := "openwork-audit-event-v1"

  /** The array that `audit_event_hash` prints; times are given by their text. */
  function EventJson(timeText: Time -> string, b: WireBody): Json {
    Arr([Str(BINDING_VERSION), Str(Hyphenated(b.id)), Str(Hyphenated(b.runId)), Number(b.sequence),
         Str(KindName(b.kind)), Str(b.actor), Str(timeText(b.timestamp)), b.metadata,
         if b.previous.None? then Null else Str(b.previous.value)])
  }

  function EventText(timeText: Time -> string, b: WireBody): string {
    Print(EventJson(timeText, b))
  }

  lemma {:induction false} EventJsonIsInjective(timeText: Time -> string, a: WireBody, b: WireBody)
    requires EventJson(timeText, a) == EventJson(timeText, b)
    requires timeText(a.timestamp) == timeText(b.timestamp) ==> a.timestamp == b.timestamp
    ensures a == b
  {
    hide Hyphenated, KindName;
    var x, y := EventJson(timeText, a).values, EventJson(timeText, b).values;
    assert forall i | 0 <= i < |x| :: x[i] == y[i];
    assert x[1] == y[1] && x[2] == y[2] && x[3] == y[3] && x[4] == y[4] && x[5] == y[5] && x[6] == y[6] && x[7] == y[7];
    assert x[8] == y[8];
    HyphenatedIsInjective(a.id, b.id);
    HyphenatedIsInjective(a.runId, b.runId);
    KindNamesDiffer(a.kind, b.kind);
  }

  /** Different events are hashed from different texts, if different times have different texts. */
  lemma {:induction false} EventTextIsInjective(timeText: Time -> string, a: EventBody, b: EventBody)
    requires EventText(timeText, Wire(a)) == EventText(timeText, Wire(b))
    requires timeText(a.timestamp) == timeText(b.timestamp) ==> a.timestamp == b.timestamp
    ensures a == b
  {
    hide Print, EventJson, RedactJson, Render;
    PrintIsInjective(EventJson(timeText, Wire(a)), EventJson(timeText, Wire(b)));
    EventJsonIsInjective(timeText, Wire(a), Wire(b));
    WireIsInjective(a, b);
  }

  /** The hashes of the store when an event is hashed as its text. */
  ghost function TextHashes(digest: string -> Digest, timeText: Time -> string,
                            action: ActionBinding -> Option<Digest>): Hashes {
    Hashes(b => digest(EventText(timeText, Wire(b))), action)
  }

  /** Tamper evidence down to the hashed text: unless the digest collides on two different texts of the two chains,
      chains that verify and end in the same hash are the same. */
  lemma {:induction false} HashedTextIsTamperEvident(digest: string -> Digest, timeText: Time -> string,
                                                     action: ActionBinding -> Option<Digest>, a: RunId, b: RunId,
                                                     left: seq<AuditEvent>, right: seq<AuditEvent>)
    requires forall s, t | timeText(s) == timeText(t) :: s == t
    requires var h := TextHashes(digest, timeText, action);
             ChainOk(h, a, left) && ChainOk(h, b, right) && LastHash(left) == LastHash(right)
    requires forall i, j | 0 <= i < |left| && 0 <= j < |right| ::
               var x, y := EventText(timeText, Wire(left[i].body)), EventText(timeText, Wire(right[j].body));
               digest(x) == digest(y) ==> x == y
    ensures left == right && a == b
  {
    var h := TextHashes(digest, timeText, action);
    hide Wire, ChainOk, EventText;
    forall i, j | 0 <= i < |left| && 0 <= j < |right| && h.event(left[i].body) == h.event(right[j].body)
      ensures left[i].body == right[j].body
    {
      EventTextIsInjective(timeText, left[i].body, right[j].body);
    }
    SameHeadSameChain(h, a, b, left, right);
  }

  // ---------------------------------------------------------------- the stored text of an event

  /** The object that an event is serialized to. */
  function StoredJson(timeText: Time -> string, w: WireEvent): Json {
    Obj([Entry("schema_version", Number(w.schema)), Entry("id", Str(Hyphenated(w.body.id))),
         Entry("run_id", Str(Hyphenated(w.body.runId))), Entry("sequence", Number(w.body.sequence)),
         Entry("event_type", Str(KindName(w.body.kind))), Entry("actor", Str(w.body.actor)),
         Entry("timestamp", Str(timeText(w.body.timestamp))), Entry("metadata", w.body.metadata),
         Entry("previous_hash", if w.body.previous.None? then Null else Str(w.body.previous.value)),
         Entry("event_hash", Str(w.hash))])
  }

  function StoredText(timeText: Time -> string, w: WireEvent): string {
    Print(StoredJson(timeText, w))
  }

  lemma {:induction false} StoredTextIsInjective(timeText: Time -> string, a: WireEvent, b: WireEvent)
    requires StoredText(timeText, a) == StoredText(timeText, b)
    requires forall s, t | timeText(s) == timeText(t) :: s == t
    ensures a == b
  {
    hide Print, Hyphenated, KindName;
    PrintIsInjective(StoredJson(timeText, a), StoredJson(timeText, b));
    var x, y := StoredJson(timeText, a).entries, StoredJson(timeText, b).entries;
    assert x[0] == y[0] && x[1] == y[1] && x[2] == y[2] && x[3] == y[3] && x[4] == y[4];
    assert x[5] == y[5] && x[6] == y[6] && x[7] == y[7] && x[8] == y[8] && x[9] == y[9];
    HyphenatedIsInjective(a.body.id, b.body.id);
    HyphenatedIsInjective(a.body.runId, b.body.runId);
    KindNamesDiffer(a.body.kind, b.body.kind);
  }

  /** The event that a text stores, if it stores one. */
  ghost function EventOf(timeText: Time -> string, text: string): Option<WireEvent> {
    if w :| StoredText(timeText, w) == text then Some(w) else None
  }

  /** The deserializer on text: the event that the text stores is redacted again and its hash recomputed. */
  ghost function AcceptText(digest: string -> Digest, timeText: Time -> string, text: string): Result<WireEvent> {
    var w := EventOf(timeText, text);
    if w.None? then Err(InvalidArguments) else Accept(body => digest(EventText(timeText, body)), w.value)
  }

  /** Every event of every reachable state, written out as text, is accepted back as it was, with its hash. */
  lemma {:induction false} StoredTextRoundTrips(digest: string -> Digest, timeText: Time -> string,
                                                action: ActionBinding -> Option<Digest>, t: Trace, i: nat, id: RunId,
                                                k: nat)
    requires forall x, y | timeText(x) == timeText(y) :: x == y
    requires t.IsHistory(WireHashes(body => digest(EventText(timeText, body)), action))
    requires i < |t.states| && id in t.states[i].audits && k < |t.states[i].audits[id]|
    ensures var w := WireOf(t.states[i].audits[id][k]);
            AcceptText(digest, timeText, StoredText(timeText, w)) == Ok(w)
  {
    hide Trace.IsHistory, StoredText, Accept, EventText;
    var w := WireOf(t.states[i].audits[id][k]);
    StoredEventsRoundTrip(body => digest(EventText(timeText, body)), action, t, i, id, k);
    assert StoredText(timeText, w) == StoredText(timeText, w);
    StoredTextIsInjective(timeText, EventOf(timeText, StoredText(timeText, w)).value, w);
  }
}
