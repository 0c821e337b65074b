/** What the redactor does to a text, said without its search, its counter or its index: the words fall into groups,
each a secret with its value or a word on its own, and every group is written on its own. */
module SecretReading {
  import opened Prelude
  import opened Text
  import opened SecretWords
  import opened TextRedaction
  import opened JsonRedaction

  // ---------------------------------------------------------------- free-standing keys and separators

  /** The letters and digits of the word spell one of the keys that can be assigned. */
  predicate SpellsKey(word: string) {
    exists k | 0 <= k < |AssignmentKeys()| :: Normalize(word) == Normalize(AssignmentKeys()[k])
  }

  predicate SpellsAuthorization(word: string) {
    Normalize(word) == "authorization"
  }

  /** The word is one `=` or `:` between quotes and punctuation. */
  predicate IsFreeSeparator(word: string) {
    exists i | 0 <= i < |word| :: (word[i] == '=' || word[i] == ':')
                                  && forall j | 0 <= j < |word| && j != i :: word[j] in WORD_PADDING
  }

  lemma {:induction false} SeparatorMeaning(word: string)
    ensures IsSeparator(word) <==> IsFreeSeparator(word)
  {
    hide Trim;
    var m, n := TrimDrops(word, WORD_PADDING);
    assert '=' !in WORD_PADDING && ':' !in WORD_PADDING;
    if IsSeparator(word) {
      assert word[m..n][0] == word[m] && n == m + 1;
    }
    if IsFreeSeparator(word) {
      var i :| 0 <= i < |word| && (word[i] == '=' || word[i] == ':')
               && forall j | 0 <= j < |word| && j != i :: word[j] in WORD_PADDING;
      assert word[m..n] == [word[i]];
    }
  }

  function NormalKeys(): seq<string> {
    [ "authorization", "setcookie", "cookie", "password", "clientsecret", "clientsecret", "privatekey", "privatekey",
      "accesskey", "accesskey", "apikey", "apikey", "secret", "token" ]
  }

  lemma {:induction false} JoinedKey(k: nat)
    requires k in {1, 4, 6, 8, 10}
    ensures Normalize(AssignmentKeys()[k]) == NormalKeys()[k]
  {
    hide Normalize;
    var key := AssignmentKeys()[k];
    if k == 1 { assert key == "set" + ['-'] + "cookie"; NormalizeJoined("set", '-', "cookie"); }
    if k == 4 { assert key == "client" + ['_'] + "secret"; NormalizeJoined("client", '_', "secret"); }
    if k == 6 { assert key == "private" + ['_'] + "key"; NormalizeJoined("private", '_', "key"); }
    if k == 8 { assert key == "access" + ['_'] + "key"; NormalizeJoined("access", '_', "key"); }
    if k == 10 { assert key == "api" + ['_'] + "key"; NormalizeJoined("api", '_', "key"); }
  }

  lemma {:induction false} NormalizedKey(k: nat)
    requires k < |AssignmentKeys()|
    ensures k < |NormalKeys()| && Normalize(AssignmentKeys()[k]) == NormalKeys()[k]
  {
    hide Normalize;
    if k in {1, 4, 6, 8, 10} { JoinedKey(k); } else { NormalizePlain(AssignmentKeys()[k]); }
  }

  /** The two key tables agree: a word is a free-standing key exactly when it spells a key that can be assigned. */
  lemma {:induction false} KeyTablesAgree(word: string)
    ensures StandaloneSecretKey(word).Some? <==> SpellsKey(word)
    ensures StandaloneSecretKey(word) == Some(true) <==> SpellsAuthorization(word)
  {
    hide Normalize;
    forall k | 0 <= k < |AssignmentKeys()|
      ensures Normalize(AssignmentKeys()[k]) == "authorization" || Normalize(AssignmentKeys()[k]) in StandaloneKeys()
    {
      NormalizedKey(k);
    }
    NormalizedKey(0);
    var places := [1, 2, 3, 5, 7, 9, 11, 12, 13];
    forall i | 0 <= i < |StandaloneKeys()| ensures Normalize(AssignmentKeys()[places[i]]) == StandaloneKeys()[i] {
      NormalizedKey(places[i]);
    }
  }

  lemma {:induction false} EndsOtherwise(s: string, end: string)
    requires s != [] && end != [] && s[|s| - 1] != end[|end| - 1]
    ensures !EndsWith(s, end)
  {
    if |end| <= |s| { assert s[|s| - |end|..][|end| - 1] == s[|s| - 1]; }
  }

  lemma {:induction false} ContainsItself(s: string)
    ensures Contains(s, s)
  {
    assert OccursAt(s, s, 0);
  }

  lemma {:induction false} NormalKeyIsPart(k: nat) returns (i: nat)
    requires k < |NormalKeys()|
    ensures i < |SecretParts()| && SecretParts()[i] == NormalKeys()[k]
    ensures NormalKeys()[k] != [] && NormalKeys()[k][|NormalKeys()[k]| - 1] !in "6h"
  {
    i := [0, 2, 1, 3, 9, 9, 8, 8, 7, 7, 6, 6, 4, 5][k];
  }

  /** Every key that can be assigned or stand free in a text is a secret key of structured data. */
  lemma {:induction false} TextKeysAreSecretKeys(word: string)
    requires SpellsKey(word)
    ensures IsSecretKey(word)
  {
    hide Normalize, Contains, EndsWith, NormalKeys, SecretParts;
    var k :| 0 <= k < |AssignmentKeys()| && Normalize(word) == Normalize(AssignmentKeys()[k]);
    NormalizedKey(k);
    var i := NormalKeyIsPart(k);
    EndsOtherwise(Normalize(word), "sha256");
    EndsOtherwise(Normalize(word), "hash");
    ContainsItself(Normalize(word));
  }

  // ---------------------------------------------------------------- the groups

  /** A free-standing key with a free-standing separator behind it. */
  predicate IsGroup(words: seq<string>) {
    |words| > 1 && SpellsKey(words[0]) && IsFreeSeparator(words[1])
  }

  ghost predicate AssignsAuthorization(word: string) {
    exists p: nat :: AssignmentAt(Lower(word), "authorization", p)
  }

  /** The word ends, padding apart, with the separator of the assignment that decides about it. */
  ghost predicate EndsOpen(word: string) {
    exists k: nat, p: nat, q: nat :: DecidedBy(Lower(word), AssignmentKeys(), k, p, q) && IsOpen(Lower(word), q)
  }

  function Smaller(a: nat, b: nat): nat {
    if a < b then a else b
  }

  /** How many words the secret at the head of the list takes, its key and separator with it. */
  ghost function Extent(words: seq<string>): (n: nat)
    requires words != []
    ensures 1 <= n <= |words|
  {
    if IsGroup(words) then 2 + Smaller(if SpellsAuthorization(words[0]) then 2 else 1, |words| - 2)
    else if IsSecretAssignment(words[0]) then
      Smaller(|words|, 1 + (if AssignsAuthorization(words[0]) then 1 else 0) + if EndsOpen(words[0]) then 1 else 0)
    else 1
  }

  function Masks(n: nat): seq<string> {
    seq(n, _ => MASK)
  }

  /** What is written for the group at the head of the list: one mask for a key, its separator and its value where they
      stand apart, one mask per word where the key is assigned, and otherwise the word, unless it is a token. */
  ghost function Written(words: seq<string>): seq<string>
    requires words != []
  {
    if IsGroup(words) then [MASK]
    else if IsSecretAssignment(words[0]) then Masks(Extent(words))
    else if HasPrefixIn(words[0], TokenPrefixes()) then [MASK]
    else [words[0]]
  }

  /** The words group by group. */
  ghost function Reading(words: seq<string>): seq<string> {
    if words == [] then [] else Written(words) + Reading(words[Extent(words)..])
  }

  // ---------------------------------------------------------------- the pass is the reading

  lemma {:induction false} AuthorizationDecides(word: string, k: nat, p: nat, q: nat)
    requires DecidedBy(Lower(word), AssignmentKeys(), k, p, q)
    ensures AssignsAuthorization(word) <==> AssignmentKeys()[k] == "authorization"
    ensures EndsOpen(word) <==> IsOpen(Lower(word), q)
  {
    assert AssignmentAt(Lower(word), AssignmentKeys()[k], p);
    assert AssignmentKeys()[0] == "authorization";
    if EndsOpen(word) {
      var k': nat, p': nat, q': nat :| DecidedBy(Lower(word), AssignmentKeys(), k', p', q') && IsOpen(Lower(word), q');
      DecisionIsUnique(Lower(word), AssignmentKeys(), k, p, q, k', p', q');
    }
  }

  /** The words an assignment covers, by what it assigns and how it ends. */
  lemma {:induction false} CoverIsExact(word: string)
    ensures SecretAssignmentTail(word)
            == if !IsSecretAssignment(word) then None
               else Some((if AssignsAuthorization(word) then 1 else 0) + if EndsOpen(word) then 1 else 0)
  {
    hide SecretAssignmentTail, IsSecretAssignment, AssignsAuthorization, EndsOpen, DecidedBy, AssignmentKeys;
    AssignmentSearchIsComplete(word);
    if IsSecretAssignment(word) {
      var k, p, q := AssignmentCovers(word);
      AuthorizationDecides(word, k, p, q);
    }
  }

  lemma {:induction false} CoveredAreMasked(c: Classifier, words: seq<string>, n: nat)
    ensures var m := Smaller(n, |words|); c.RedactWords(words, n) == Masks(m) + c.RedactWords(words[m..], 0)
  {
    if n == 0 || words == [] {
      assert words[Smaller(n, |words|)..] == words;
    } else {
      CoveredAreMasked(c, words[1..], n - 1);
      var m := Smaller(n, |words|);
      assert words[1..][m - 1..] == words[m..];
      assert Masks(m) == [MASK] + Masks(m - 1);
    }
  }

  lemma {:induction false} PrefixAssigns(word: string, upper: string, key: string)
    requires |upper| == |key| + 1 && upper[|key|] == '=' && upper <= Upper(word)
    requires forall i | 0 <= i < |key| :: key[i] == LowerChar(upper[i])
    ensures AssignmentAt(Lower(word), key, 0)
  {
    var lower := Lower(word);
    forall i | 0 <= i < |key| ensures lower[i] == key[i] { assert UpperChar(word[i]) == upper[i]; }
    assert UpperChar(word[|key|]) == '=';
    assert lower[0..|key|] == key;
    assert Assigns(lower, key, 0, |key|);
  }

  /** Which of the assigned keys an upper-case key is. */
  lemma {:induction false} WordKeyIsKey(i: nat) returns (k: nat)
    requires i < |WordKeys()|
    ensures k < |AssignmentKeys()|
    ensures var (upper, key) := (WordKeys()[i], AssignmentKeys()[k]);
            && |upper| == |key| + 1 && upper[|key|] == '=' && forall j | 0 <= j < |key| :: key[j] == LowerChar(upper[j])
  {
    k := [13, 10, 3, 12, 0, 2][i];
  }

  /** The table of upper-case keys masks nothing that the assignments do not. */
  lemma {:induction false} WordKeysAssign(word: string)
    requires HasPrefixIn(Upper(word), WordKeys())
    ensures IsSecretAssignment(word)
  {
    hide Upper, Lower, AssignmentAt, WordKeys, AssignmentKeys;
    var i :| 0 <= i < |WordKeys()| && WordKeys()[i] <= Upper(word);
    var k := WordKeyIsKey(i);
    PrefixAssigns(word, WordKeys()[i], AssignmentKeys()[k]);
  }

  lemma {:induction false} AssignmentIsRead(words: seq<string>)
    requires words != [] && !IsGroup(words) && IsSecretAssignment(words[0])
    requires !SourceClassifier().StartsSeparatedSecret(words)
    ensures SourceClassifier().RedactWords(words, 0)
            == Written(words) + SourceClassifier().RedactWords(words[Extent(words)..], 0)
  {
    hide StandaloneSecretKey, SecretAssignmentTail, IsSeparator, IsGroup, IsSecretAssignment, AssignsAuthorization,
      EndsOpen, RedactWord, Masks;
    CoverIsExact(words[0]);
    var n := SecretAssignmentTail(words[0]).value;
    CoveredAreMasked(SourceClassifier(), words[1..], n);
    var m := Smaller(n, |words| - 1);
    assert words[1..][m..] == words[m + 1..];
    OneMoreMask(m);
  }

  lemma {:induction false} OneMoreMask(m: nat)
    ensures Masks(m + 1) == [MASK] + Masks(m)
  {
  }

  lemma {:induction false} OtherWordIsRead(words: seq<string>)
    requires words != [] && !IsGroup(words) && !IsSecretAssignment(words[0])
    requires !SourceClassifier().StartsSeparatedSecret(words)
    ensures SourceClassifier().RedactWords(words, 0)
            == Written(words) + SourceClassifier().RedactWords(words[Extent(words)..], 0)
  {
    hide StandaloneSecretKey, SecretAssignmentTail, IsSeparator, IsGroup, IsSecretAssignment, HasPrefixIn, WordKeys,
      TokenPrefixes, Upper;
    CoverIsExact(words[0]);
    if HasPrefixIn(Upper(words[0]), WordKeys()) { WordKeysAssign(words[0]); }
  }

  /** One group at a time, the pass writes what the reading says. */
  lemma {:induction false} GroupIsRead(words: seq<string>)
    requires words != []
    ensures SourceClassifier().RedactWords(words, 0)
            == Written(words) + SourceClassifier().RedactWords(words[Extent(words)..], 0)
  {
    hide StandaloneSecretKey, SecretAssignmentTail, IsSeparator, SpellsKey, SpellsAuthorization, IsFreeSeparator,
      IsSecretAssignment, RedactWord;
    KeyTablesAgree(words[0]);
    if |words| > 1 { SeparatorMeaning(words[1]); }
    if !IsGroup(words) {
      if IsSecretAssignment(words[0]) { AssignmentIsRead(words); } else { OtherWordIsRead(words); }
    }
  }

  lemma {:induction false} PassIsReading(words: seq<string>)
    ensures SourceClassifier().RedactWords(words, 0) == Reading(words)
    decreases |words|
  {
    hide SourceClassifier, Written;
    if words != [] {
      GroupIsRead(words);
      PassIsReading(words[Extent(words)..]);
    }
  }

  /** Redaction is the reading of the words, group by group, for every text. */
  lemma {:induction false} RedactionIsReading(text: string)
    ensures RedactText(text) == Join(Reading(Words(text)))
    ensures Words(RedactText(text)) == Reading(Words(text))
  {
    hide SourceClassifier, Reading, Words, Join;
    PassIsReading(Words(text));
    MaskIsOrdinary();
    RedactedWords(SourceClassifier(), text);
  }

  // ---------------------------------------------------------------- every place in a text

  /** A group begins at the place. */
  ghost predicate BeginsAt(words: seq<string>, i: nat)
    decreases |words|
  {
    i == 0 || (words != [] && Extent(words) <= i && BeginsAt(words[Extent(words)..], i - Extent(words)))
  }

  lemma {:induction false} ReadFrom(words: seq<string>, i: nat) returns (before: seq<string>)
    requires i <= |words| && BeginsAt(words, i)
    ensures Reading(words) == before + Reading(words[i..])
    decreases |words|
  {
    before := [];
    if i > 0 {
      var n := Extent(words);
      before := ReadFrom(words[n..], i - n);
      assert words[n..][i - n..] == words[i..];
      before := Written(words) + before;
    }
  }

  /** Every word of a text is read in one group: the one that begins last at or before it. */
  lemma {:induction false} EveryWordIsInAGroup(words: seq<string>, i: nat) returns (j: nat)
    requires i < |words|
    ensures j <= i < j + Extent(words[j..]) && BeginsAt(words, j)
    decreases |words|
  {
    var n := Extent(words);
    if i < n {
      j := 0;
      assert words[0..] == words;
    } else {
      j := EveryWordIsInAGroup(words[n..], i - n);
      assert words[n..][j..] == words[n + j..];
      j := n + j;
    }
  }

  /** In any text, wherever a group begins, the output goes on with what is written for it and then with the reading of
      the words behind it. */
  lemma {:induction false} SecretIsMaskedInText(text: string, i: nat) returns (before: seq<string>)
    requires i < |Words(text)| && BeginsAt(Words(text), i)
    ensures var rest := Words(text)[i..];
            Words(RedactText(text)) == before + Written(rest) + Reading(rest[Extent(rest)..])
  {
    hide Words, Written, BeginsAt;
    RedactionIsReading(text);
    before := ReadFrom(Words(text), i);
  }

  // ---------------------------------------------------------------- the four assignments and the two groups

  /** "authorization:" and nothing behind the separator: the next two words are masked. */
  lemma {:induction false} OpenAuthorization(word: string, a: string, b: string, rest: seq<string>)
    requires AssignsAuthorization(word) && EndsOpen(word) && !(SpellsKey(word) && IsFreeSeparator(a))
    ensures Reading([word, a, b] + rest) == [MASK, MASK, MASK] + Reading(rest)
  {
    hide AssignmentAt, SpellsKey, IsFreeSeparator, EndsOpen;
    var words := [word, a, b] + rest;
    AuthorizationIsSecret(word);
    assert words[Extent(words)..] == rest;
  }

  lemma {:induction false} AuthorizationIsSecret(word: string)
    requires AssignsAuthorization(word)
    ensures IsSecretAssignment(word)
  {
    assert AssignmentKeys()[0] == "authorization";
  }

  /** "authorization:value": the next word is masked. */
  lemma {:induction false} ClosedAuthorization(word: string, a: string, rest: seq<string>)
    requires AssignsAuthorization(word) && !EndsOpen(word) && !(SpellsKey(word) && IsFreeSeparator(a))
    ensures Reading([word, a] + rest) == [MASK, MASK] + Reading(rest)
  {
    hide AssignmentAt, SpellsKey, IsFreeSeparator, EndsOpen;
    var words := [word, a] + rest;
    AuthorizationIsSecret(word);
    assert words[Extent(words)..] == rest;
  }

  /** Another key with nothing behind its separator: the next word is masked. */
  lemma {:induction false} OpenAssignment(word: string, a: string, rest: seq<string>)
    requires IsSecretAssignment(word) && !AssignsAuthorization(word) && EndsOpen(word)
    requires !(SpellsKey(word) && IsFreeSeparator(a))
    ensures Reading([word, a] + rest) == [MASK, MASK] + Reading(rest)
  {
    hide AssignmentAt, SpellsKey, IsFreeSeparator, EndsOpen, IsSecretAssignment, AssignsAuthorization;
    var words := [word, a] + rest;
    assert words[Extent(words)..] == rest;
  }

  /** Another key with a value: the next word is read on its own. */
  lemma {:induction false} ClosedAssignment(word: string, rest: seq<string>)
    requires IsSecretAssignment(word) && !AssignsAuthorization(word) && !EndsOpen(word)
    requires rest == [] || !(SpellsKey(word) && IsFreeSeparator(rest[0]))
    ensures Reading([word] + rest) == [MASK] + Reading(rest)
  {
    hide AssignmentAt, SpellsKey, IsFreeSeparator, EndsOpen, IsSecretAssignment, AssignsAuthorization;
    var words := [word] + rest;
    assert words[Extent(words)..] == rest;
  }

  /** "authorization : a b": the whole group, with both words of its value, becomes one mask. */
  lemma {:induction false} SeparatedAuthorization(key: string, separator: string, a: string, b: string,
                                                  rest: seq<string>)
    requires SpellsAuthorization(key) && IsFreeSeparator(separator)
    ensures Reading([key, separator, a, b] + rest) == [MASK] + Reading(rest)
  {
    hide SpellsAuthorization, IsFreeSeparator, SpellsKey;
    var words := [key, separator, a, b] + rest;
    KeyTablesAgree(key);
    assert words[Extent(words)..] == rest;
  }

  /** Another key on its own, separator and value: one mask. */
  lemma {:induction false} SeparatedKey(key: string, separator: string, a: string, rest: seq<string>)
    requires SpellsKey(key) && !SpellsAuthorization(key) && IsFreeSeparator(separator)
    ensures Reading([key, separator, a] + rest) == [MASK] + Reading(rest)
  {
    hide SpellsAuthorization, IsFreeSeparator, SpellsKey;
    var words := [key, separator, a] + rest;
    assert words[Extent(words)..] == rest;
  }
}
