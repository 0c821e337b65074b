/** How the redactor classifies one word: `secret_assignment_tail`, `standalone_secret_key`
and `redact_word`. */
module SecretWords {
  import opened Prelude
  import opened Text

  const MASK: string := "[REDACTED]"

  /** The quotes and blanks skipped between a key and its separator. */
  const KEY_PADDING: string := "\"' \t"

  /** The punctuation stripped from an assigned value before asking whether it is empty. */
  const VALUE_PADDING: string := "\"',;}] "

  /** The punctuation stripped from a free-standing separator word. */
  const WORD_PADDING: string := "\"',;"

  function AssignmentKeys(): seq<string> {
    [ "authorization", "set-cookie", "cookie", "password", "client_secret", "clientsecret", "private_key",
      "privatekey", "access_key", "accesskey", "api_key", "apikey", "secret", "token" ]
  }

  /** The normalized secret keys other than "authorization". */
  function StandaloneKeys(): seq<string> {
    ["setcookie", "cookie", "password", "clientsecret", "privatekey", "accesskey", "apikey", "secret", "token"]
  }

  function WordKeys(): seq<string> {
    ["TOKEN=", "API_KEY=", "PASSWORD=", "SECRET=", "AUTHORIZATION=", "COOKIE="]
  }

  function TokenPrefixes(): seq<string> {
    ["sk-", "ghp_", "gho_", "github_pat_"]
  }

  /** `Some(true)` for the word "authorization", `Some(false)` for another secret key. */
  function StandaloneSecretKey(word: string): Option<bool> {
    var normalized := Normalize(word);
    if normalized == "authorization" then Some(true)
    else if normalized in StandaloneKeys() then Some(false)
    else None
  }

  predicate IsSeparator(word: string) {
    var t := Trim(word, WORD_PADDING);
    t == "=" || t == ":"
  }

  function RedactWord(word: string): string {
    if HasPrefixIn(Upper(word), WordKeys()) || HasPrefixIn(word, TokenPrefixes()) then MASK else word
  }

  /** Words that follow an assignment and still belong to its value. */
  function Following(key: string, value: string): nat {
    var empty := Trim(value, VALUE_PADDING) == [];
    if key == "authorization" then (if empty then 2 else 1) else if empty then 1 else 0
  }

  /** The search for one key, from a moving offset. */
  function TailFrom(lower: string, key: string, offset: nat): Option<nat>
    requires offset <= |lower| && key != []
    decreases |lower| - offset
  {
    match Find(lower, key, offset)
    case None => None
    case Some(p) =>
      var suffix := TrimStart(lower[p + |key|..], KEY_PADDING);
      if suffix == [] then None
      else if suffix[0] == '=' || suffix[0] == ':' then Some(Following(key, suffix[1..]))
      else TailFrom(lower, key, p + |key|)
  }

  /** The keys in order; the first that is assigned decides. */
  function TailOverKeys(lower: string, keys: seq<string>): Option<nat>
  {
    if keys == [] then None
    else if keys[0] != [] && TailFrom(lower, keys[0], 0).Some? then TailFrom(lower, keys[0], 0)
    else TailOverKeys(lower, keys[1..])
  }

  function SecretAssignmentTail(word: string): Option<nat> {
    TailOverKeys(Lower(word), AssignmentKeys())
  }

  // ---------------------------------------------------------------- assignments by position

  /** `key` stands at `p` and, with nothing but padding in between, `=` or `:` stands at `q`. */
  predicate Assigns(lower: string, key: string, p: nat, q: nat) {
    && OccursAt(lower, key, p) && p + |key| <= q < |lower| && (lower[q] == '=' || lower[q] == ':')
    && forall i | p + |key| <= i < q :: lower[i] in KEY_PADDING
  }

  ghost predicate AssignmentAt(lower: string, key: string, p: nat) {
    exists q: nat :: Assigns(lower, key, p, q)
  }

  ghost predicate AssignsOneOf(lower: string, keys: seq<string>) {
    exists k, p: nat | 0 <= k < |keys| :: AssignmentAt(lower, keys[k], p)
  }

  ghost predicate IsSecretAssignment(word: string) {
    AssignsOneOf(Lower(word), AssignmentKeys())
  }

  /** There is nothing but padding behind the separator. */
  predicate IsOpen(lower: string, q: nat) {
    forall i | q < i < |lower| :: lower[i] in VALUE_PADDING
  }

  /** The words behind an assignment that belong to its value: the value itself where the word ends without one, and for
      "authorization" one more, since its value has two words. */
  function Covered(key: string, lower: string, q: nat): nat {
    (if key == "authorization" then 1 else 0) + (if IsOpen(lower, q) then 1 else 0)
  }

  /** The first assignment of the key from `offset` on. */
  ghost predicate FirstFrom(lower: string, key: string, offset: nat, p: nat, q: nat) {
    offset <= p && Assigns(lower, key, p, q) && forall p': nat | offset <= p' < p :: !AssignmentAt(lower, key, p')
  }

  /** The assignment that decides about a word: the first one of the first of the keys that is assigned at all. */
  ghost predicate DecidedBy(lower: string, keys: seq<string>, k: nat, p: nat, q: nat) {
    && k < |keys| && FirstFrom(lower, keys[k], 0, p, q)
    && forall k', p': nat | 0 <= k' < k :: !AssignmentAt(lower, keys[k'], p')
  }

  // ---------------------------------------------------------------- the search is exact

  /** A key that cannot overlap a copy of itself and does not start with padding. */
  predicate Searchable(key: string) {
    && key != [] && key[0] !in KEY_PADDING
    && forall d | 0 < d < |key| :: key[d..] != key[..|key| - d]
  }

  lemma {:induction false} OverlapIsBorder(lower: string, key: string, q: nat, d: nat)
    requires OccursAt(lower, key, q) && OccursAt(lower, key, q + d) && 0 < d < |key|
    ensures key[d..] == key[..|key| - d]
  {
    var p := q + d;
    assert lower[q..q + |key|][d..] == lower[p..p + |key|][..|key| - d];
  }

  lemma {:induction false} CopiesDoNotOverlap(lower: string, key: string, q: nat, p: nat)
    requires Searchable(key) && OccursAt(lower, key, q) && OccursAt(lower, key, p) && q < p
    ensures q + |key| <= p
  {
    if p < q + |key| { OverlapIsBorder(lower, key, q, p - q); }
  }

  /** Where the padding behind a key ends. */
  lemma {:induction false} PaddingEnds(lower: string, end: nat) returns (q: nat)
    requires end <= |lower|
    ensures end <= q <= |lower| && TrimStart(lower[end..], KEY_PADDING) == lower[q..]
    ensures (forall i | end <= i < q :: lower[i] in KEY_PADDING) && (q < |lower| ==> lower[q] !in KEY_PADDING)
  {
    var n := TrimStartDrops(lower[end..], KEY_PADDING);
    q := end + n;
    assert forall i | end <= i < q :: lower[i] == lower[end..][i - end];
    assert lower[end..][n..] == lower[q..];
  }

  lemma {:induction false} FollowingIsCovered(key: string, lower: string, q: nat)
    requires q < |lower|
    ensures Following(key, lower[q..][1..]) == Covered(key, lower, q)
  {
    var value := lower[q..][1..];
    assert value == lower[q + 1..];
    TrimIsEmpty(value, VALUE_PADDING);
    assert forall i | q < i < |lower| :: lower[i] == value[i - q - 1];
    assert IsOpen(lower, q) <==> forall i | 0 <= i < |value| :: value[i] in VALUE_PADDING;
  }

  /** One round of the search for a key. */
  lemma {:induction false} SearchRound(lower: string, key: string, offset: nat) returns (q: nat)
    requires key != [] && offset <= |lower| && Find(lower, key, offset).Some?
    ensures var p := Find(lower, key, offset).value;
            && p + |key| <= q <= |lower| && (forall i | p + |key| <= i < q :: lower[i] in KEY_PADDING)
            && (q < |lower| ==> lower[q] !in KEY_PADDING)
            && TailFrom(lower, key, offset)
               == if q == |lower| then None
                  else if lower[q] == '=' || lower[q] == ':' then Some(Covered(key, lower, q))
                  else TailFrom(lower, key, p + |key|)
  {
    hide Covered, Following, Find, TrimStart;
    q := PaddingEnds(lower, Find(lower, key, offset).value + |key|);
    if q < |lower| { FollowingIsCovered(key, lower, q); }
  }

  /** No copy of the key stands in padding. */
  lemma {:induction false} NoCopyInPadding(lower: string, key: string, end: nat, p: nat)
    requires Searchable(key) && end <= p && forall i | end <= i < |lower| :: lower[i] in KEY_PADDING
    ensures !OccursAt(lower, key, p)
  {
    if p + |key| <= |lower| { assert lower[p..p + |key|][0] == lower[p]; }
  }

  /** The search for one key finds its first assignment, and counts the words it covers by where its separator stands;
      it skips none although it goes on behind each copy of the key. */
  lemma {:induction false} TailFromIsExact(lower: string, key: string, offset: nat) returns (p: nat, q: nat)
    requires Searchable(key) && offset <= |lower|
    ensures var r := TailFrom(lower, key, offset);
            if r.None? then forall p': nat | offset <= p' :: !AssignmentAt(lower, key, p')
            else FirstFrom(lower, key, offset, p, q) && r.value == Covered(key, lower, q)
    decreases |lower| - offset
  {
    hide Covered, Following, TrimStart, TailFrom;
    p, q := 0, 0;
    var found := Find(lower, key, offset);
    if found.None? {
      assert TailFrom(lower, key, offset).None? by { NotFound(lower, key, offset); }
    } else {
      p := found.value;
      var end := p + |key|;
      q := SearchRound(lower, key, offset);
      forall p': nat | p < p' && OccursAt(lower, key, p') ensures end <= p' { CopiesDoNotOverlap(lower, key, p, p'); }
      if q == |lower| {
        NotAssigned(lower, key, p, q);
        forall p': nat | end <= p' ensures !OccursAt(lower, key, p') { NoCopyInPadding(lower, key, end, p'); }
      } else if lower[q] != '=' && lower[q] != ':' {
        NotAssigned(lower, key, p, q);
        p, q := TailFromIsExact(lower, key, end);
      }
    }
  }

  lemma {:induction false} NotFound(lower: string, key: string, offset: nat)
    requires key != [] && offset <= |lower| && Find(lower, key, offset).None?
    ensures TailFrom(lower, key, offset).None?
  {
  }

  lemma {:induction false} NotAssigned(lower: string, key: string, p: nat, q: nat)
    requires p + |key| <= q <= |lower|
    requires q < |lower| ==> lower[q] !in KEY_PADDING && lower[q] != '=' && lower[q] != ':'
    requires forall i | p + |key| <= i < q :: lower[i] in KEY_PADDING
    ensures !AssignmentAt(lower, key, p)
  {
    assert '=' !in KEY_PADDING && ':' !in KEY_PADDING;
  }

  /** The search over the keys is decided by the first assignment of the first key that is assigned. */
  lemma {:induction false} TailOverKeysIsExact(lower: string, keys: seq<string>) returns (k: nat, p: nat, q: nat)
    requires forall k | 0 <= k < |keys| :: Searchable(keys[k])
    ensures TailOverKeys(lower, keys).Some? <==> AssignsOneOf(lower, keys)
    ensures var r := TailOverKeys(lower, keys);
            r.Some? ==> DecidedBy(lower, keys, k, p, q) && r.value == Covered(keys[k], lower, q)
  {
    k, p, q := 0, 0, 0;
    if keys != [] {
      assert Searchable(keys[0]);
      hide Searchable, TailFrom, Assigns, AssignmentAt, Covered;
      p, q := TailFromIsExact(lower, keys[0], 0);
      if TailFrom(lower, keys[0], 0).Some? {
        AssignedThere(lower, keys[0], p, q);
      } else {
        k, p, q := TailOverKeysIsExact(lower, keys[1..]);
        k := k + 1;
        forall k', p': nat | 0 < k' < |keys|
          ensures AssignmentAt(lower, keys[k'], p') <==> AssignmentAt(lower, keys[1..][k' - 1], p')
        {
        }
        assert AssignsOneOf(lower, keys) ==> AssignsOneOf(lower, keys[1..]);
        assert AssignsOneOf(lower, keys[1..]) ==> AssignsOneOf(lower, keys);
      }
    }
  }

  lemma {:induction false} AssignedThere(lower: string, key: string, p: nat, q: nat)
    requires FirstFrom(lower, key, 0, p, q)
    ensures AssignmentAt(lower, key, p)
  {
  }

  /** The first letter of the key does not come again, unless with another letter behind it. */
  predicate NoEcho(key: string) {
    forall d | 0 < d < |key| :: key[d] != key[0] || (d + 1 < |key| && key[d + 1] != key[1])
  }

  lemma {:induction false} NoEchoIsSearchable(key: string)
    requires key != [] && key[0] !in KEY_PADDING && NoEcho(key)
    ensures Searchable(key)
  {
    forall d | 0 < d < |key| ensures key[d..] != key[..|key| - d] {
      assert key[d..][0] == key[d] && key[..|key| - d][0] == key[0];
      assert d + 1 < |key| ==> key[d..][1] == key[d + 1] && key[..|key| - d][1] == key[1];
    }
  }

  lemma {:induction false} KeysAreSearchable()
    ensures forall k | 0 <= k < |AssignmentKeys()| :: Searchable(AssignmentKeys()[k])
  {
    hide Searchable;
    forall k | 0 <= k < |AssignmentKeys()| ensures Searchable(AssignmentKeys()[k]) {
      assert NoEcho(AssignmentKeys()[k]);
      NoEchoIsSearchable(AssignmentKeys()[k]);
    }
  }

  /** The offset-skipping search of the source finds a secret assignment exactly when one exists. */
  lemma {:induction false} AssignmentSearchIsComplete(word: string)
    ensures SecretAssignmentTail(word).Some? <==> IsSecretAssignment(word)
  {
    KeysAreSearchable();
    var k, p, q := TailOverKeysIsExact(Lower(word), AssignmentKeys());
  }

  /** An assignment covers as many words as the place of its separator says. */
  lemma {:induction false} AssignmentCovers(word: string) returns (k: nat, p: nat, q: nat)
    requires IsSecretAssignment(word)
    ensures DecidedBy(Lower(word), AssignmentKeys(), k, p, q)
    ensures SecretAssignmentTail(word) == Some(Covered(AssignmentKeys()[k], Lower(word), q))
  {
    hide AssignsOneOf, TailOverKeys, DecidedBy, Covered;
    KeysAreSearchable();
    k, p, q := TailOverKeysIsExact(Lower(word), AssignmentKeys());
  }

  /** There is one deciding assignment. */
  lemma {:induction false} DecisionIsUnique(lower: string, keys: seq<string>, k: nat, p: nat, q: nat, k': nat, p': nat,
                                            q': nat)
    requires DecidedBy(lower, keys, k, p, q) && DecidedBy(lower, keys, k', p', q')
    ensures k == k' && p == p' && q == q'
  {
    assert AssignmentAt(lower, keys[k], p) && AssignmentAt(lower, keys[k'], p');
    assert '=' !in KEY_PADDING && ':' !in KEY_PADDING;
  }

  lemma {:induction false} TokenAssigns()
    ensures Lower("token:") == "token:" && Assigns("token:", "token", 0, 5)
  {
    assert "token:"[0..5] == "token";
  }

  /** A word can be both a key and an assignment. */
  lemma {:induction false} KeyAndAssignment()
    ensures StandaloneSecretKey("token:").Some?
    ensures SecretAssignmentTail("token:").Some? && SecretAssignmentTail("token:").value > 0
  {
    hide StandaloneSecretKey, Lower, SecretAssignmentTail, AssignmentKeys, AssignmentAt, KEY_PADDING;
    TokenIsKey();
    TokenAssigns();
    TokenIsSecret();
    var k, p, q := AssignmentCovers("token:");
    assert q == 5;
  }

  lemma {:induction false} TokenIsSecret()
    ensures AssignsOneOf("token:", AssignmentKeys())
  {
    TokenAssigns();
    hide Assigns;
    assert AssignmentKeys()[13] == "token" && AssignmentAt("token:", "token", 0);
  }

  lemma {:induction false} TokenIsKey()
    ensures StandaloneSecretKey("token:").Some?
  {
    assert "token:"[1..] == "oken:" && "oken:"[1..] == "ken:" && "ken:"[1..] == "en:" && "en:"[1..] == "n:";
    assert Normalize("n:") == "n";
    assert Normalize("ken:") == "ken";
    assert Normalize("token:") == "token" == StandaloneKeys()[8];
  }

  lemma {:induction false} SeparatorIsInWord(word: string, q: nat)
    requires q < |word| && (Lower(word)[q] == '=' || Lower(word)[q] == ':')
    ensures '=' in word || ':' in word
  {
    assert word[q] in word;
  }

  /** A word without `=` and `:` assigns nothing. */
  lemma {:induction false} NoSeparatorNoAssignment(word: string)
    requires '=' !in word && ':' !in word
    ensures SecretAssignmentTail(word).None?
  {
    AssignmentSearchIsComplete(word);
    if IsSecretAssignment(word) {
      var k, p, q := AssignmentCovers(word);
      SeparatorIsInWord(word, q);
    }
  }

  /** The search for one key: every occurrence in turn, until one is followed by a separator. */
  method SearchKey(lower: string, key: string) returns (r: Option<nat>)
    requires key != []
    ensures r == TailFrom(lower, key, 0)
  {
    hide TrimStart, IsWhitespace, Following;
    var offset := 0;
    var found := Find(lower, key, offset);
    while found.Some?
      invariant offset <= |lower| && found == Find(lower, key, offset)
      invariant TailFrom(lower, key, 0) == TailFrom(lower, key, offset)
      decreases |lower| - offset
    {
      var end := found.value + |key|;
      var suffix := TrimStart(lower[end..], KEY_PADDING);
      if suffix == [] { break; }
      if suffix[0] == '=' || suffix[0] == ':' {
        return Some(Following(key, suffix[1..]));
      }
      offset := end;
      found := Find(lower, key, offset);
    }
    r := None;
  }

  /** The search over a table of keys as the source runs it: keys in order, each with a moving offset. */
  method SearchKeys(lower: string, keys: seq<string>) returns (r: Option<nat>)
    requires forall k | 0 <= k < |keys| :: Searchable(keys[k])
    ensures r == TailOverKeys(lower, keys)
    ensures r.Some? <==> AssignsOneOf(lower, keys)
    ensures r.Some? ==> exists k: nat, p: nat, q: nat :: DecidedBy(lower, keys, k, p, q)
                                                         && r.value == Covered(keys[k], lower, q)
  {
    hide AssignsOneOf, TailFrom, Following, Covered, DecidedBy;
    ghost var k, p, q := TailOverKeysIsExact(lower, keys);
    for k := 0 to |keys|
      invariant TailOverKeys(lower, keys) == TailOverKeys(lower, keys[k..])
    {
      assert Searchable(keys[k]);
      r := SearchKey(lower, keys[k]);
      if r.Some? { return; }
      assert keys[k..][1..] == keys[k + 1..];
    }
    r := None;
  }
}
