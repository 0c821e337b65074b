/** Redaction of structured data: `redact_json` and `is_secret_key`. */
module JsonRedaction {
  import opened Prelude
  import opened Text
  import opened SecretWords
  import opened TextRedaction

  datatype Json =
    | Null
    | Bool(truth: bool)
    | Number(number: int)
    | Str(text: string)
    | Arr(values: seq<Json>)
    | Obj(entries: seq<Entry>)

  datatype Entry = Entry(key: string, value: Json)

  /** The normalized parts that make a key secret. */
  function SecretParts(): seq<string> {
    [ "authorization", "cookie", "setcookie", "password", "secret", "token", "apikey", "accesskey", "privatekey",
      "clientsecret", "prompt", "stdout", "stderr", "runtimeoutput", "rawoutput", "vendorpayload", "messagecontent",
      "message", "content", "parameters" ]
  }

  predicate EndsWith(s: string, end: string) {
    |end| <= |s| && s[|s| - |end|..] == end
  }

  predicate Contains(s: string, part: string) {
    Find(s, part, 0).Some?
  }

  /** `is_secret_key`. */
  predicate IsSecretKey(key: string) {
    var n := Normalize(key);
    && !EndsWith(n, "sha256") && !EndsWith(n, "hash")
    && exists i | 0 <= i < |SecretParts()| :: Contains(n, SecretParts()[i])
  }

  /** `redact_json`. */
  function RedactJson(value: Json): Json {
    match value
    case Arr(values) => Arr(seq(|values|, i requires 0 <= i < |values| => RedactJson(values[i])))
    case Obj(entries) => Obj(seq(|entries|, i requires 0 <= i < |entries| => RedactEntry(entries[i])))
    case Str(text) => Str(RedactText(text))
    case _ => value
  }

  function RedactEntry(e: Entry): Entry {
    Entry(e.key, if IsSecretKey(e.key) then Str(MASK) else RedactJson(e.value))
  }

  /** The value holds nothing that redaction would take out. */
  ghost predicate IsClean(value: Json) {
    match value
    case Arr(values) => forall i | 0 <= i < |values| :: IsClean(values[i])
    case Obj(entries) => forall i | 0 <= i < |entries| :: IsCleanEntry(entries[i])
    case Str(text) => RedactText(text) == text
    case _ => true
  }

  ghost predicate IsCleanEntry(e: Entry) {
    if IsSecretKey(e.key) then e.value == Str(MASK) else IsClean(e.value)
  }

  /** Whatever is redacted is clean. */
  lemma {:induction false} RedactedIsClean(value: Json)
    ensures IsClean(RedactJson(value))
  {
    hide IsSecretKey, RedactText;
    match value
    case Arr(values) =>
      forall i | 0 <= i < |values| ensures IsClean(RedactJson(values[i])) { RedactedIsClean(values[i]); }
    case Obj(entries) =>
      forall i | 0 <= i < |entries| ensures IsCleanEntry(RedactEntry(entries[i])) { RedactedIsClean(entries[i].value); }
    case Str(text) => RedactTextIsIdempotent(text);
    case _ =>
  }

  /** Redaction leaves a value alone exactly when it is clean. */
  lemma {:induction false} KeptExactlyWhenClean(value: Json)
    ensures RedactJson(value) == value <==> IsClean(value)
  {
    hide IsSecretKey, RedactText;
    match value
    case Arr(values) =>
      forall i | 0 <= i < |values| ensures RedactJson(values[i]) == values[i] <==> IsClean(values[i]) {
        KeptExactlyWhenClean(values[i]);
      }
      var redacted := RedactJson(value).values;
      assert RedactJson(value) == value ==> forall i | 0 <= i < |values| :: redacted[i] == values[i];
      assert (forall i | 0 <= i < |values| :: redacted[i] == values[i]) ==> redacted == values;
    case Obj(entries) =>
      forall i | 0 <= i < |entries| ensures RedactEntry(entries[i]) == entries[i] <==> IsCleanEntry(entries[i]) {
        KeptExactlyWhenClean(entries[i].value);
      }
      var redacted := RedactJson(value).entries;
      assert RedactJson(value) == value ==> forall i | 0 <= i < |entries| :: redacted[i] == entries[i];
      assert (forall i | 0 <= i < |entries| :: redacted[i] == entries[i]) ==> redacted == entries;
    case Str(text) =>
    case _ =>
  }

  /** Redacting structured data twice is redacting it once. */
  lemma {:induction false} RedactJsonIsIdempotent(value: Json)
    ensures RedactJson(RedactJson(value)) == RedactJson(value)
  {
    hide RedactJson, IsClean;
    RedactedIsClean(value);
    KeptExactlyWhenClean(RedactJson(value));
  }

  // ---------------------------------------------------------------- every place in the data

  /** The value at a place: the position of the element or entry to enter, level by level. */
  function At(value: Json, place: seq<nat>): Option<Json> {
    if place == [] then Some(value)
    else match value
         case Arr(values) => if place[0] < |values| then At(values[place[0]], place[1..]) else None
         case Obj(entries) => if place[0] < |entries| then At(entries[place[0]].value, place[1..]) else None
         case _ => None
  }

  /** The last step to the place enters an entry with a secret key. */
  predicate EntersSecret(value: Json, place: seq<nat>) {
    place != [] &&
    var n := |place| - 1;
    match At(value, place[..n])
    case Some(Obj(entries)) => place[n] < |entries| && IsSecretKey(entries[place[n]].key)
    case _ => false
  }

  /** No step to the place does. */
  ghost predicate IsOpenTo(value: Json, place: seq<nat>) {
    forall k | 0 <= k <= |place| :: !EntersSecret(value, place[..k])
  }

  /** The one is what is left of the other: the same scalar, the redacted text, as many elements, the same keys. */
  predicate IsRedactedFace(value: Json, redacted: Json) {
    match value
    case Str(text) => redacted == Str(RedactText(text))
    case Arr(values) => redacted.Arr? && |redacted.values| == |values|
    case Obj(entries) =>
      && redacted.Obj? && |redacted.entries| == |entries|
      && forall i | 0 <= i < |entries| :: redacted.entries[i].key == entries[i].key
    case _ => redacted == value
  }

  lemma {:induction false} FaceIsRedacted(value: Json)
    ensures IsRedactedFace(value, RedactJson(value))
  {
    hide RedactText, IsSecretKey;
  }

  lemma {:induction false} SecretBelow(value: Json, place: seq<nat>, k: nat)
    requires place != [] && 0 < k < |place| && (value.Arr? || value.Obj?)
    requires value.Arr? ==> place[0] < |value.values|
    requires value.Obj? ==> place[0] < |value.entries|
    ensures EntersSecret(if value.Arr? then value.values[place[0]] else value.entries[place[0]].value, place[1..][..k])
            <==> EntersSecret(value, place[..k + 1])
  {
    hide IsSecretKey;
    assert place[1..][..k] == place[..k + 1][1..];
    assert place[..k + 1][..k] == place[..k] && place[1..][..k][..k - 1] == place[..k][1..];
    assert place[..k][0] == place[0];
  }

  /** Wherever no secret key leads, redacted data has the same scalars, elements and keys, and the redacted texts. */
  lemma {:induction false} OpenPlacesAreKept(value: Json, place: seq<nat>)
    requires IsOpenTo(value, place) && At(value, place).Some?
    ensures At(RedactJson(value), place).Some?
    ensures IsRedactedFace(At(value, place).value, At(RedactJson(value), place).value)
    decreases |place|
  {
    hide RedactText, IsSecretKey;
    if place == [] {
      FaceIsRedacted(value);
    } else {
      assert !EntersSecret(value, place[..1]) && place[..1][..0] == [];
      var below := if value.Arr? then value.values[place[0]] else value.entries[place[0]].value;
      forall k | 0 <= k <= |place[1..]| ensures !EntersSecret(below, place[1..][..k]) {
        assert !EntersSecret(value, place[..k + 1]);
        if 0 < k { SecretBelow(value, place, k); }
      }
      OpenPlacesAreKept(below, place[1..]);
    }
  }

  /** Where a secret key leads, there is the mask and nothing below it. */
  lemma {:induction false} SecretPlacesAreMasked(value: Json, place: seq<nat>, rest: seq<nat>)
    requires place != [] && IsOpenTo(value, place[..|place| - 1]) && EntersSecret(value, place)
    ensures At(RedactJson(value), place) == Some(Str(MASK))
    ensures rest != [] ==> At(RedactJson(value), place + rest).None?
  {
    hide RedactText, IsSecretKey, RedactJson;
    EntryIsMasked(value, place);
    AtJoined(RedactJson(value), place, rest);
  }

  lemma {:induction false} AtJoined(value: Json, place: seq<nat>, rest: seq<nat>)
    ensures At(value, place + rest) == if At(value, place).None? then None else At(At(value, place).value, rest)
    decreases |place|
  {
    if place == [] {
      assert place + rest == rest;
    } else {
      assert (place + rest)[0] == place[0] && (place + rest)[1..] == place[1..] + rest;
      match value
      case Arr(values) => if place[0] < |values| { AtJoined(values[place[0]], place[1..], rest); }
      case Obj(entries) => if place[0] < |entries| { AtJoined(entries[place[0]].value, place[1..], rest); }
      case _ =>
    }
  }

  lemma {:induction false} EntryIsMasked(value: Json, place: seq<nat>)
    requires place != [] && IsOpenTo(value, place[..|place| - 1]) && EntersSecret(value, place)
    ensures At(RedactJson(value), place) == Some(Str(MASK))
    decreases |place|
  {
    hide RedactText, IsSecretKey;
    if |place| == 1 {
      assert place[..0] == [] && place[1..] == [];
    } else {
      var n := |place| - 1;
      assert place[..n][..1] == place[..1] && place[..1][..0] == [];
      assert !EntersSecret(value, place[..n][..1]);
      assert place[..n] == [place[0]] + place[..n][1..];
      AtJoined(value, [place[0]], place[..n][1..]);
      var below := if value.Arr? then value.values[place[0]] else value.entries[place[0]].value;
      var up := place[1..][..n - 1];
      forall k | 0 <= k <= |up| ensures !EntersSecret(below, up[..k]) {
        assert up[..k] == place[1..][..k] && place[..n][..k + 1] == place[..k + 1];
        assert !EntersSecret(value, place[..n][..k + 1]);
        if 0 < k { SecretBelow(value, place, k); }
      }
      SecretBelow(value, place, n);
      assert place[1..][..n] == place[1..] && place[..n + 1] == place;
      EntryIsMasked(below, place[1..]);
    }
  }

  // ---------------------------------------------------------------- keys that are not secret

  /** A key of lower-case words joined by underscores. */
  predicate IsSnakeCase(key: string) {
    forall i | 0 <= i < |key| :: 'a' <= key[i] <= 'z' || key[i] == '_'
  }

  /** Normalizing such a key brings no new letter into it. */
  lemma {:induction false} NormalizedLetters(key: string, letter: char)
    requires IsSnakeCase(key) && letter in Normalize(key)
    ensures letter in key
  {
    if key != [] && !(IsAsciiAlphanumeric(key[0]) && letter == LowerChar(key[0])) {
      NormalizedLetters(key[1..], letter);
    }
  }

  /** A text that lacks the `k`-th letter of a part does not contain the part. */
  lemma {:induction false} LacksLetter(text: string, part: string, k: nat)
    requires k < |part| && part[k] !in text
    ensures !Contains(text, part)
  {
  }

  /** A key is no secret when it lacks some letters of which every secret part has one, at the position given,
      unless the part does not occur in it anyway. */
  lemma {:induction false} KeyIsNoSecret(key: string, lacking: string, at: seq<nat>)
    requires IsSnakeCase(key) && (forall c | c in lacking :: c !in key) && |at| == |SecretParts()|
    requires forall i | 0 <= i < |at| ::
               || (at[i] < |SecretParts()[i]| && SecretParts()[i][at[i]] in lacking)
               || !Contains(Normalize(key), SecretParts()[i])
    ensures !IsSecretKey(key)
  {
    hide Contains, Normalize, SecretParts;
    forall i | 0 <= i < |SecretParts()| ensures !Contains(Normalize(key), SecretParts()[i]) {
      var part := SecretParts()[i];
      if at[i] < |part| && part[at[i]] in lacking {
        if part[at[i]] in Normalize(key) { NormalizedLetters(key, part[at[i]]); }
        LacksLetter(Normalize(key), part, at[i]);
      }
    }
  }

  /** A text in which the first letter of a part is never followed by the second does not contain the part. */
  lemma {:induction false} LacksPair(text: string, part: string)
    requires |part| >= 2 && forall p: nat | p + 1 < |text| && text[p] == part[0] :: text[p + 1] != part[1]
    ensures !Contains(text, part)
  {
    forall p: nat ensures !OccursAt(text, part, p) {
      assert p + |part| <= |text| ==> text[p..p + |part|][0] == text[p] && text[p..p + |part|][1] == text[p + 1];
    }
  }

  lemma {:induction false} ArtifactSizeNormalizes()
    ensures Normalize("artifact_size_bytes") == "artifactsizebytes"
  {
    hide Normalize;
    assert "artifact" + ['_'] + "size" == "artifact_size" && "artifact" + "size" == "artifactsize";
    NormalizeJoined("artifact", '_', "size");
    NormalizeConcat("artifact_size", "_bytes");
    assert "artifact_size" + "_bytes" == "artifact_size_bytes" && "artifactsize" + "bytes" == "artifactsizebytes";
    assert "" + ['_'] + "bytes" == "_bytes" && "" + "bytes" == "bytes";
    NormalizeJoined("", '_', "bytes");
  }

  /** The keys the store writes are no secrets. */
  lemma {:induction false} RunStatusIsNoSecret()
    ensures !IsSecretKey("run_status")
  {
    hide IsSecretKey, Contains, Normalize;
    KeyIsNoSecret("run_status", "oe", [4, 1, 1, 5, 1, 1, 4, 3, 6, 3, 2, 3, 3, 6, 3, 1, 1, 1, 1, 5]);
  }

  lemma {:induction false} StatusIsNoSecret()
    ensures !IsSecretKey("status")
  {
    hide IsSecretKey, Contains, Normalize;
    KeyIsNoSecret("status", "oe", [4, 1, 1, 5, 1, 1, 4, 3, 6, 3, 2, 3, 3, 6, 3, 1, 1, 1, 1, 5]);
  }

  lemma {:induction false} ActionIdIsNoSecret()
    ensures !IsSecretKey("action_id")
  {
    hide IsSecretKey, Contains, Normalize;
    KeyIsNoSecret("action_id", "eup", [1, 5, 1, 0, 1, 3, 1, 3, 0, 3, 0, 4, 3, 1, 4, 1, 1, 1, 4, 0]);
  }

  lemma {:induction false} ApprovalIdIsNoSecret()
    ensures !IsSecretKey("approval_id")
  {
    hide IsSecretKey, Contains, Normalize;
    KeyIsNoSecret("approval_id", "ets", [2, 5, 0, 2, 0, 0, 4, 3, 5, 3, 5, 0, 0, 3, 5, 1, 1, 1, 3, 5]);
  }

  lemma {:induction false} RevisionIsNoSecret()
    ensures !IsSecretKey("revision")
  {
    hide IsSecretKey, Contains, Normalize;
    KeyIsNoSecret("revision", "atc", [0, 0, 2, 1, 2, 0, 0, 0, 4, 0, 5, 1, 1, 3, 1, 7, 4, 4, 0, 1]);
  }

  lemma {:induction false} NoSecretInArtifactSize()
    ensures !Contains(Normalize("artifact_size_bytes"), "secret")
  {
    hide Contains, Normalize;
    ArtifactSizeNormalizes();
    LacksPair("artifactsizebytes", "secret");
  }

  lemma {:induction false} ArtifactSizeLacks()
    ensures IsSnakeCase("artifact_size_bytes") && forall c | c in "okldm" :: c !in "artifact_size_bytes"
  {
    assert "artifact_size_bytes" == "artifact_size" + "_bytes";
    assert forall c | c in "okldm" :: c !in "artifact_size" && c !in "_bytes";
  }

  /** This key has all the letters of "secret", though not in order. */
  lemma {:induction false} ArtifactSizeIsNoSecret()
    ensures !IsSecretKey("artifact_size_bytes")
  {
    hide IsSecretKey, Contains, Normalize, IsSnakeCase;
    NoSecretInArtifactSize();
    ArtifactSizeLacks();
    KeyIsNoSecret("artifact_size_bytes", "okldm", [4, 1, 4, 5, 0, 1, 3, 6, 7, 1, 2, 2, 2, 5, 3, 3, 0, 0, 1, 4]);
  }

  /** A key that ends in a digest word is never secret. */
  lemma {:induction false} DigestKeyIsNoSecret(prefix: string, end: string)
    requires end == "sha256" || end == "hash"
    ensures !IsSecretKey(prefix + end)
  {
    NormalizeConcat(prefix, end);
    NormalizePlain(end);
    hide Contains, Normalize;
    assert EndsWith(Normalize(prefix) + end, end);
  }
}
