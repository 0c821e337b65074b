/** Audit events as they are stored and read back: metadata as redacted JSON, bound by the event hash. */
module AuditWire {
  import opened Prelude
  import opened Text
  import opened SecretWords
  import opened TextRedaction
  import opened JsonRedaction
  import opened Records
  import opened AuditChain
  import opened StoreState
  import opened StoreInvariant
  import opened History
  import JsonText

  // ---------------------------------------------------------------- identifiers as text

  /** The last `width` hexadecimal digits of `n`. */
  function HexDigits(n: nat, width: nat): (r: string)
    ensures |r| == width && forall i | 0 <= i < width :: IsHexDigit(r[i])
  {
    if width == 0 then [] else HexDigits(n / 16, width - 1) + [JsonText.HexDigit(n % 16)]
  }

  function Power16(width: nat): nat {
    if width == 0 then 1 else 16 * Power16(width - 1)
  }

  lemma {:induction false} HexDigitsAreInjective(a: nat, b: nat, width: nat)
    requires a < Power16(width) && b < Power16(width) && HexDigits(a, width) == HexDigits(b, width)
    ensures a == b
  {
    if width > 0 {
      var x, y := HexDigits(a, width), HexDigits(b, width);
      assert x[width - 1] == JsonText.HexDigit(a % 16) && y[width - 1] == JsonText.HexDigit(b % 16);
      assert x[..width - 1] == HexDigits(a / 16, width - 1) && y[..width - 1] == HexDigits(b / 16, width - 1);
      HexDigitsAreInjective(a / 16, b / 16, width - 1);
    }
  }

  /** The hyphenated form of an identifier: groups of 8, 4, 4, 4 and 12 digits. */
  function Hyphenated(id: Uuid): string {
    var d := HexDigits(id, 32);
    d[..8] + "-" + d[8..12] + "-" + d[12..16] + "-" + d[16..20] + "-" + d[20..]
  }

  lemma {:induction false} HyphenatedIsInjective(a: Uuid, b: Uuid)
    requires Hyphenated(a) == Hyphenated(b)
    ensures a == b
  {
    hide HexDigits;
    var x, y := HexDigits(a, 32), HexDigits(b, 32);
    DigitsOfHyphenated(x);
    DigitsOfHyphenated(y);
    assert x == y;
    PowerOf32();
    HexDigitsAreInjective(a, b, 32);
  }

  /** The digits can be read back from their hyphenated form. */
  lemma {:induction false} DigitsOfHyphenated(d: string)
    requires |d| == 32
    ensures var h := d[..8] + "-" + d[8..12] + "-" + d[12..16] + "-" + d[16..20] + "-" + d[20..];
            |h| == 36 && d == h[..8] + h[9..13] + h[14..18] + h[19..23] + h[24..]
  {
    var h := d[..8] + "-" + d[8..12] + "-" + d[12..16] + "-" + d[16..20] + "-" + d[20..];
    assert h[..8] == d[..8] && h[9..13] == d[8..12] && h[14..18] == d[12..16] && h[19..23] == d[16..20]
           && h[24..] == d[20..];
  }

  lemma {:induction false} PowerOf32()
    ensures Power16(32) == 0x1_0000_0000_0000_0000_0000_0000_0000_0000
  {
    assert Power16(8) == 0x1_0000_0000;
    assert Power16(16) == 0x1_0000_0000_0000_0000 by { PowerAdds(8, 8); }
    PowerAdds(16, 16);
  }

  lemma {:induction false} PowerAdds(a: nat, b: nat)
    ensures Power16(a + b) == Power16(a) * Power16(b)
  {
    if a > 0 {
      PowerAdds(a - 1, b);
      assert Power16(a + b) == 16 * Power16(a - 1 + b);
    }
  }

  // ---------------------------------------------------------------- texts that redaction keeps

  /** Hexadecimal digits and hyphens. */
  predicate IsHexText(s: string) {
    s != [] && forall i | 0 <= i < |s| :: IsHexDigit(s[i]) || s[i] == '-'
  }

  /** A word without `=` begins with no assignment. */
  lemma {:induction false} NoEqualsNoKey(s: string)
    requires '=' !in s
    ensures !HasPrefixIn(Upper(s), WordKeys())
  {
    forall i | 0 <= i < |WordKeys()| ensures !(WordKeys()[i] <= Upper(s)) {
      var n := |WordKeys()[i]|;
      assert WordKeys()[i][n - 1] == '=';
      assert n <= |s| ==> Upper(s)[n - 1] == UpperChar(s[n - 1]) != '=';
    }
  }

  lemma {:induction false} HexWordIsKept(s: string)
    requires IsHexText(s)
    ensures RedactWord(s) == s
  {
    NoEqualsNoKey(s);
    forall i | 0 <= i < |TokenPrefixes()| ensures !(TokenPrefixes()[i] <= s) {
      assert TokenPrefixes()[i][0] in "sg";
    }
  }

  /** Digests and hyphenated identifiers pass the redactor unchanged. */
  lemma {:induction false} HexTextIsKept(s: string)
    requires IsHexText(s)
    ensures RedactText(s) == s
  {
    HexWordIsKept(s);
    hide RedactWord, RedactText;
    assert IsWord(s);
    PlainWordIsKept(s);
  }

  lemma {:induction false} HyphenatedIsHexText(id: Uuid)
    ensures IsHexText(Hyphenated(id))
  {
    hide HexDigits;
    var d := HexDigits(id, 32);
    var h := Hyphenated(id);
    assert forall i | 0 <= i < |h| :: h[i] in d || h[i] == '-';
  }

  /** A lower-case word that does not begin like a token passes the redactor unchanged. */
  lemma {:induction false} LowerWordIsKept(s: string)
    requires s != [] && (forall i | 0 <= i < |s| :: 'a' <= s[i] <= 'z' || s[i] == '_')
    requires s[0] != 'g' && !(s[0] == 's' && |s| > 1 && s[1] == 'k')
    ensures RedactText(s) == s
  {
    assert RedactWord(s) == s by {
      NoEqualsNoKey(s);
      forall i | 0 <= i < |TokenPrefixes()| ensures !(TokenPrefixes()[i] <= s) {
        var prefix := TokenPrefixes()[i];
        assert prefix[0] == 'g' || (prefix[0] == 's' && prefix[1] == 'k');
      }
    }
    hide RedactWord, RedactText;
    assert IsWord(s);
    PlainWordIsKept(s);
  }

  // ---------------------------------------------------------------- metadata as JSON

  function StatusName(s: RunStatus): string {
    match s
    case Queued => "queued"
    case Planning => "planning"
    case AwaitingApproval => "awaiting_approval"
    case Running => "running"
    case Succeeded => "succeeded"
    case Failed => "failed"
    case Cancelled => "cancelled"
    case TimedOut => "timed_out"
  }

  function ApprovalStatusName(s: ApprovalStatus): string {
    match s
    case Pending => "pending"
    case Approved => "approved"
    case Denied => "denied"
    case Expired => "expired"
    case Consumed => "consumed"
  }

  /** The metadata of an event before redaction, in key order. */
  function Render(m: Metadata): Json {
    match m
    case NoDetail => Obj([])
    case StatusDetail(status) => Obj([Entry("run_status", Str(StatusName(status)))])
    case ArtifactDetail(sha256, size) =>
      Obj([Entry("artifact_sha256", Str(sha256)), Entry("artifact_size_bytes", Number(size))])
    case ExecutionDetail(action, hash) =>
      Obj([Entry("action_id", Str(Hyphenated(action))), Entry("parameter_hash", Str(hash))])
    case ApprovalDetail(approval, action, hash, revision, status) =>
      Obj([Entry("action_id", Str(Hyphenated(action))), Entry("approval_id", Str(Hyphenated(approval))),
           Entry("parameter_hash", Str(hash)),
           Entry("revision", Number(revision)), Entry("status", Str(ApprovalStatusName(status)))])
  }

  lemma {:induction false} StatusNameIsKept(s: RunStatus)
    ensures RedactText(StatusName(s)) == StatusName(s)
  {
    hide RedactText;
    LowerWordIsKept(StatusName(s));
  }

  lemma {:induction false} ApprovalStatusNameIsKept(s: ApprovalStatus)
    ensures RedactText(ApprovalStatusName(s)) == ApprovalStatusName(s)
  {
    hide RedactText;
    LowerWordIsKept(ApprovalStatusName(s));
  }

  lemma {:induction false} KeysAreNoSecrets()
    ensures !IsSecretKey("run_status") && !IsSecretKey("artifact_sha256") && !IsSecretKey("artifact_size_bytes")
    ensures !IsSecretKey("action_id") && !IsSecretKey("parameter_hash") && !IsSecretKey("approval_id")
    ensures !IsSecretKey("revision") && !IsSecretKey("status")
  {
    hide IsSecretKey;
    RunStatusIsNoSecret();
    StatusIsNoSecret();
    ActionIdIsNoSecret();
    ApprovalIdIsNoSecret();
    RevisionIsNoSecret();
    ArtifactSizeIsNoSecret();
    DigestKeyIsNoSecret("artifact_", "sha256");
    DigestKeyIsNoSecret("parameter_", "hash");
    assert "artifact_" + "sha256" == "artifact_sha256" && "parameter_" + "hash" == "parameter_hash";
  }

  lemma {:induction false} CleanText(key: string, text: string)
    requires !IsSecretKey(key) && RedactText(text) == text
    ensures IsCleanEntry(Entry(key, Str(text)))
  {
    hide IsSecretKey, RedactText;
  }

  lemma {:induction false} CleanIdentifier(key: string, id: Uuid)
    requires !IsSecretKey(key)
    ensures IsCleanEntry(Entry(key, Str(Hyphenated(id))))
  {
    hide IsSecretKey, RedactText, Hyphenated;
    HyphenatedIsHexText(id);
    HexTextIsKept(Hyphenated(id));
    CleanText(key, Hyphenated(id));
  }

  lemma {:induction false} CleanDigest(key: string, digest: Digest)
    requires !IsSecretKey(key)
    ensures IsCleanEntry(Entry(key, Str(digest)))
  {
    hide IsSecretKey, RedactText;
    HexTextIsKept(digest);
    CleanText(key, digest);
  }

  lemma {:induction false} CleanNumber(key: string, n: int)
    requires !IsSecretKey(key)
    ensures IsCleanEntry(Entry(key, Number(n)))
  {
  }

  /** Redaction loses nothing of the metadata that the store writes. */
  lemma {:induction false} RenderedIsKept(m: Metadata)
    ensures RedactJson(Render(m)) == Render(m)
  {
    hide IsSecretKey, RedactText, Hyphenated, IsCleanEntry, RedactJson;
    KeysAreNoSecrets();
    match m {
      case NoDetail =>
      case StatusDetail(status) =>
        StatusNameIsKept(status);
        CleanText("run_status", StatusName(status));
      case ArtifactDetail(sha256, size) =>
        CleanDigest("artifact_sha256", sha256);
        CleanNumber("artifact_size_bytes", size);
      case ExecutionDetail(action, hash) =>
        CleanIdentifier("action_id", action);
        CleanDigest("parameter_hash", hash);
      case ApprovalDetail(approval, action, hash, revision, status) =>
        CleanIdentifier("action_id", action);
        CleanIdentifier("approval_id", approval);
        CleanDigest("parameter_hash", hash);
        CleanNumber("revision", revision);
        ApprovalStatusNameIsKept(status);
        CleanText("status", ApprovalStatusName(status));
    }
    assert IsClean(Render(m));
    KeptExactlyWhenClean(Render(m));
  }

  // ---------------------------------------------------------------- reading events back

  const SCHEMA_VERSION := 1

  datatype WireBody = WireBody(id: EventId,
                               runId: RunId,
                               sequence: nat,
                               kind: EventKind,
                               actor: ActorId,
                               timestamp: Time,
                               metadata: Json,
                               previous: Option<Digest>)

  datatype WireEvent = WireEvent(schema: nat, body: WireBody, hash: Digest)

  /** The stored form of an event body: its metadata has been redacted. */
  function Wire(b: EventBody): WireBody {
    WireBody(b.id, b.runId, b.sequence, b.kind, b.actor, b.timestamp, RedactJson(Render(b.metadata)), b.previous)
  }

  function WireOf(e: AuditEvent): WireEvent {
    WireEvent(SCHEMA_VERSION, Wire(e.body), e.hash)
  }

  /** The hashes of the store when an event is hashed in its stored form. */
  ghost function WireHashes(sha256: WireBody -> Digest, action: ActionBinding -> Option<Digest>): Hashes {
    Hashes(b => sha256(Wire(b)), action)
  }

  /** The deserializer of events: it redacts the metadata again and recomputes the hash. */
  function Accept(sha256: WireBody -> Digest, w: WireEvent): Result<WireEvent> {
    var body := w.body.(metadata := RedactJson(w.body.metadata));
    if !PositionIsValid(body.sequence, body.previous) then Err(InvalidArguments)
    else if w.schema != SCHEMA_VERSION || w.hash != sha256(body) then Err(InvalidArguments)
    else Ok(WireEvent(SCHEMA_VERSION, body, w.hash))
  }

  /** Every event of every reachable state is accepted back and comes back as it was stored. */
  lemma {:induction false} StoredEventsRoundTrip(sha256: WireBody -> Digest, action: ActionBinding -> Option<Digest>,
                                                 t: Trace, i: nat, id: RunId, k: nat)
    requires t.IsHistory(WireHashes(sha256, action)) && i < |t.states| && id in t.states[i].audits
             && k < |t.states[i].audits[id]|
    ensures var e := WireOf(t.states[i].audits[id][k]); Accept(sha256, e) == Ok(e)
  {
    var h := WireHashes(sha256, action);
    var e := t.states[i].audits[id][k];
    hide Inv, RunOk, ReceiptsOk, RedactJson, Render, Trace.StepAt;
    EveryHistoryIsValid(h, t, i);
    RunAndChain(h, t.states[i], id);
    assert EventOk(h, id, t.states[i].audits[id], k);
    RedactJsonIsIdempotent(Render(e.body.metadata));
  }

  /** What is accepted is redacted, and its hash is the hash of what was accepted. */
  lemma {:induction false} AcceptedIsClean(sha256: WireBody -> Digest, w: WireEvent)
    requires Accept(sha256, w).Ok?
    ensures var e := Accept(sha256, w).value;
            IsClean(e.body.metadata) && e.hash == sha256(e.body) && Accept(sha256, e) == Ok(e)
  {
    hide RedactJson, IsClean;
    RedactedIsClean(w.body.metadata);
    RedactJsonIsIdempotent(w.body.metadata);
  }

  // ---------------------------------------------------------------- receipts in the stored form

  /** The text under a key, if the value is a text. */
  function TextAt(entries: seq<Entry>, key: string): Option<string> {
    if entries == [] then None
    else if entries[0].key == key then (if entries[0].value.Str? then Some(entries[0].value.text) else None)
    else TextAt(entries[1..], key)
  }

  function FieldAt(metadata: Json, key: string): Option<string> {
    if metadata.Obj? then TextAt(metadata.entries, key) else None
  }

  lemma {:induction false} TextAtSkips(entries: seq<Entry>, key: string)
    requires entries != [] && |entries[0].key| != |key|
    ensures TextAt(entries, key) == TextAt(entries[1..], key)
  {
  }

  /** The stored fields of an event are exactly what its metadata names. */
  lemma {:induction false} StoredBinding(m: Metadata)
    ensures var json := RedactJson(Render(m));
            match BoundAction(m)
            case Some((action, hash)) =>
              FieldAt(json, "action_id") == Some(Hyphenated(action)) && FieldAt(json, "parameter_hash") == Some(hash)
            case None => FieldAt(json, "action_id").None? && FieldAt(json, "parameter_hash").None?
  {
    RenderedIsKept(m);
    hide RedactJson, Hyphenated;
    FieldsOf(m);
  }

  lemma {:induction false} FieldsOf(m: Metadata)
    ensures match BoundAction(m)
            case Some((action, hash)) =>
              FieldAt(Render(m), "action_id") == Some(Hyphenated(action))
                && FieldAt(Render(m), "parameter_hash") == Some(hash)
            case None => FieldAt(Render(m), "action_id").None? && FieldAt(Render(m), "parameter_hash").None?
  {
    hide Hyphenated, StatusName, ApprovalStatusName;
    var entries := Render(m).entries;
    match m {
      case NoDetail =>
      case StatusDetail(_) => TextAtSkips(entries, "action_id"); TextAtSkips(entries, "parameter_hash");
      case ArtifactDetail(_, _) =>
        TextAtSkips(entries, "action_id");
        TextAtSkips(entries[1..], "action_id");
        TextAtSkips(entries, "parameter_hash");
        TextAtSkips(entries[1..], "parameter_hash");
      case ExecutionDetail(_, _) => TextAtSkips(entries, "parameter_hash");
      case ApprovalDetail(_, _, _, _, _) =>
        TextAtSkips(entries, "parameter_hash");
        TextAtSkips(entries[1..], "parameter_hash");
    }
  }

  /** The scan of `execution_receipt_was_audited` on the stored text: one event. */
  predicate WireSpoils(w: WireEvent, receipt: ExecutionReceipt) {
    && w.body.kind.ActionExecuted?
    && var action, hash := FieldAt(w.body.metadata, "action_id"), FieldAt(w.body.metadata, "parameter_hash");
       || action.None? || hash.None?
       || (action.value == Hyphenated(receipt.actionId)
           && (w.body.runId != receipt.runId || hash.value != receipt.parameterHash))
  }

  predicate WireExecutes(w: WireEvent, action: ActionId) {
    w.body.kind.ActionExecuted? && FieldAt(w.body.metadata, "action_id") == Some(Hyphenated(action))
  }

  /** Audited receipts stay recognisable: comparing the stored texts decides exactly what comparing
      identifiers and digests decides. */
  lemma {:induction false} ScanOfStoredTextIsExact(e: AuditEvent, receipt: ExecutionReceipt)
    ensures WireSpoils(WireOf(e), receipt) <==> SpoilsReceipt(e, receipt)
    ensures WireExecutes(WireOf(e), receipt.actionId) <==> Executes(e, receipt.actionId)
  {
    StoredBinding(e.body.metadata);
    hide RedactJson, Render, Hyphenated, FieldAt;
    if BoundAction(e.body.metadata).Some?
      && Hyphenated(BoundAction(e.body.metadata).value.0) == Hyphenated(receipt.actionId) {
      HyphenatedIsInjective(BoundAction(e.body.metadata).value.0, receipt.actionId);
    }
  }

  function WireAll(events: seq<AuditEvent>): seq<WireEvent> {
    seq(|events|, i requires 0 <= i < |events| => WireOf(events[i]))
  }

  function WireCount(events: seq<WireEvent>, action: ActionId): nat {
    if events == [] then 0
    else WireCount(events[..|events| - 1], action) + if WireExecutes(events[|events| - 1], action) then 1 else 0
  }

  /** `execution_receipt_was_audited` on the stored text. */
  function WireReceiptWasAudited(events: seq<WireEvent>, receipt: ExecutionReceipt): Result<bool> {
    if exists k | 0 <= k < |events| :: WireSpoils(events[k], receipt) then Err(ApprovalInvalid)
    else match WireCount(events, receipt.actionId)
         case 0 => Ok(false)
         case 1 => Ok(true)
         case _ => Err(ApprovalInvalid)
  }

  lemma {:induction false} WireCountIsCount(events: seq<AuditEvent>, receipt: ExecutionReceipt)
    ensures WireCount(WireAll(events), receipt.actionId) == CountExecutions(events, receipt.actionId)
  {
    hide WireExecutes, Executes, WireOf;
    if events != [] {
      var n := |events| - 1;
      assert WireAll(events)[..n] == WireAll(events[..n]);
      WireCountIsCount(events[..n], receipt);
      ScanOfStoredTextIsExact(events[n], receipt);
    }
  }

  /** The receipt scan of any chain gives the same answer on its stored text. */
  lemma {:induction false} StoredScanIsExact(events: seq<AuditEvent>, receipt: ExecutionReceipt)
    ensures WireReceiptWasAudited(WireAll(events), receipt) == ReceiptWasAudited(events, receipt)
  {
    hide WireSpoils, SpoilsReceipt, WireOf, WireExecutes, Executes;
    WireCountIsCount(events, receipt);
    forall k | 0 <= k < |events|
      ensures WireSpoils(WireAll(events)[k], receipt) <==> SpoilsReceipt(events[k], receipt)
    {
      ScanOfStoredTextIsExact(events[k], receipt);
    }
  }

  // ---------------------------------------------------------------- tampering with stored events

  lemma {:induction false} StatusNamesDiffer(a: RunStatus, b: RunStatus)
    requires StatusName(a) == StatusName(b)
    ensures a == b
  {
    assert |StatusName(a)| == |StatusName(b)| && StatusName(a)[0] == StatusName(b)[0];
  }

  lemma {:induction false} ApprovalStatusNamesDiffer(a: ApprovalStatus, b: ApprovalStatus)
    requires ApprovalStatusName(a) == ApprovalStatusName(b)
    ensures a == b
  {
    assert |ApprovalStatusName(a)| == |ApprovalStatusName(b)| && ApprovalStatusName(a)[0] == ApprovalStatusName(b)[0];
  }

  /** Different metadata is stored differently. */
  lemma {:induction false} RenderIsInjective(a: Metadata, b: Metadata)
    requires Render(a) == Render(b)
    ensures a == b
  {
    hide StatusName, ApprovalStatusName, Hyphenated;
    var x, y := Render(a).entries, Render(b).entries;
    assert |x| == |y| && forall i | 0 <= i < |x| :: x[i] == y[i];
    if |x| > 0 { assert |x[0].key| == |y[0].key|; }
    match a {
      case NoDetail =>
      case StatusDetail(status) => StatusNamesDiffer(status, b.status);
      case ArtifactDetail(_, _) => assert x[1].value == y[1].value;
      case ExecutionDetail(action, _) =>
        assert x[1].value == y[1].value;
        HyphenatedIsInjective(action, b.actionId);
      case ApprovalDetail(approval, action, _, _, status) =>
        assert x[1].value == y[1].value && x[2].value == y[2].value && x[3].value == y[3].value
               && x[4].value == y[4].value;
        HyphenatedIsInjective(action, b.approvedAction);
        HyphenatedIsInjective(approval, b.approvalId);
        ApprovalStatusNamesDiffer(status, b.approvalStatus);
    }
  }

  /** Different events are stored differently, so a collision of event hashes is one of stored bodies. */
  lemma {:induction false} WireIsInjective(a: EventBody, b: EventBody)
    requires Wire(a) == Wire(b)
    ensures a == b
  {
    hide RedactJson, Render;
    RenderedIsKept(a.metadata);
    RenderedIsKept(b.metadata);
    RenderIsInjective(a.metadata, b.metadata);
  }

  /** Tamper evidence in the stored form: unless the digest collides on two different stored bodies of the
      two chains, chains of a run that verify and end in the same hash are the same. */
  lemma {:induction false} StoredChainsAreTamperEvident(sha256: WireBody -> Digest,
                                                        action: ActionBinding -> Option<Digest>, a: RunId, b: RunId,
                                                        left: seq<AuditEvent>, right: seq<AuditEvent>)
    requires var h := WireHashes(sha256, action);
             ChainOk(h, a, left) && ChainOk(h, b, right) && LastHash(left) == LastHash(right)
    requires forall i, j | 0 <= i < |left| && 0 <= j < |right|
             && sha256(Wire(left[i].body)) == sha256(Wire(right[j].body)) ::
               Wire(left[i].body) == Wire(right[j].body)
    ensures left == right && a == b
  {
    var h := WireHashes(sha256, action);
    hide Wire, ChainOk;
    forall i, j | 0 <= i < |left| && 0 <= j < |right| && h.event(left[i].body) == h.event(right[j].body)
      ensures left[i].body == right[j].body
    {
      WireIsInjective(left[i].body, right[j].body);
    }
    SameHeadSameChain(h, a, b, left, right);
  }
}
