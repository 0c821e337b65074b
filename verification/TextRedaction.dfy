/** Free-text redaction: `redact_text`.

The pass over the words is stated over an arbitrary word classifier, so its laws hold for
every table of secret words; the classifier of the source is the last section. */
module TextRedaction {
  import opened Prelude
  import opened Text
  import opened SecretWords

  /** How one word is read: the words an assignment still covers, whether it is a free-standing
      key (`Some(true)` for "authorization"), whether it is a separator, and what becomes of it
      otherwise. */
  datatype Classifier = Classifier(tail: string -> Option<nat>,
                                   key: string -> Option<bool>,
                                   separator: string -> bool,
                                   plain: string -> string)
  {
    /** The mask is an ordinary word, and an ordinary word is kept or masked. */
    ghost predicate MaskIsInert() {
      && tail(MASK).None? && key(MASK).None? && !separator(MASK)
      && forall w :: plain(w) == w || plain(w) == MASK
    }

    predicate StartsSeparatedSecret(words: seq<string>) {
      |words| > 1 && key(words[0]).Some? && separator(words[1])
    }

    /** Words consumed by a `key = value` group at the head of `words`. */
    function SeparatedSpan(words: seq<string>): (n: nat)
      requires StartsSeparatedSecret(words)
      ensures 2 <= n <= |words|
    {
      var wanted := if key(words[0]).value then 2 else 1;
      var available := |words| - 2;
      2 + if wanted < available then wanted else available
    }

    /** Redaction of a word list when the next `following` words belong to a secret. */
    function RedactWords(words: seq<string>, following: nat): seq<string> {
      if words == [] then []
      else if following > 0 then [MASK] + RedactWords(words[1..], following - 1)
      else if StartsSeparatedSecret(words) then [MASK] + RedactWords(words[SeparatedSpan(words)..], 0)
      else match tail(words[0])
           case Some(n) => [MASK] + RedactWords(words[1..], n)
           case None => [plain(words[0])] + RedactWords(words[1..], 0)
    }

    function Redact(input: string): string {
      Join(RedactWords(Words(input), 0))
    }

    /** The word at `i` would be kept where it stands. */
    ghost predicate SettledAt(words: seq<string>, i: nat)
      requires i < |words|
    {
      && tail(words[i]).None?
      && plain(words[i]) == words[i]
      && !(i + 1 < |words| && key(words[i]).Some? && separator(words[i + 1]))
    }

    ghost predicate Settled(words: seq<string>) {
      forall i | 0 <= i < |words| :: SettledAt(words, i)
    }
  }

  lemma {:induction false} SettledCons(c: Classifier, w: string, rest: seq<string>)
    requires c.tail(w).None? && c.plain(w) == w && c.Settled(rest)
    requires !(rest != [] && c.key(w).Some? && c.separator(rest[0]))
    ensures c.Settled([w] + rest)
  {
    var all := [w] + rest;
    forall i | 0 <= i < |all| ensures c.SettledAt(all, i) {
      if i > 0 { assert c.SettledAt(rest, i - 1); }
    }
  }

  lemma {:induction false} SettledTail(c: Classifier, words: seq<string>)
    requires words != [] && c.Settled(words)
    ensures c.Settled(words[1..])
  {
    forall i | 0 <= i < |words[1..]| ensures c.SettledAt(words[1..], i) {
      assert c.SettledAt(words, i + 1);
    }
  }

  lemma {:induction false} RedactedWordsAreSettled(c: Classifier, words: seq<string>, following: nat)
    requires c.MaskIsInert() && AllWords(words)
    ensures AllWords(c.RedactWords(words, following)) && c.Settled(c.RedactWords(words, following))
    decreases |words|
  {
    assert IsWord(MASK);
    if words == [] {
    } else if following > 0 {
      RedactedWordsAreSettled(c, words[1..], following - 1);
      SettledCons(c, MASK, c.RedactWords(words[1..], following - 1));
    } else if c.StartsSeparatedSecret(words) {
      var rest := words[c.SeparatedSpan(words)..];
      RedactedWordsAreSettled(c, rest, 0);
      SettledCons(c, MASK, c.RedactWords(rest, 0));
    } else if c.tail(words[0]).Some? {
      var n := c.tail(words[0]).value;
      RedactedWordsAreSettled(c, words[1..], n);
      SettledCons(c, MASK, c.RedactWords(words[1..], n));
    } else {
      // the word after a kept word is that word or its mask, so no separator moves next to a key
      RedactedWordsAreSettled(c, words[1..], 0);
      assert |words| > 1 ==> c.RedactWords(words[1..], 0)[0] in [MASK, words[1]];
      SettledCons(c, c.plain(words[0]), c.RedactWords(words[1..], 0));
    }
  }

  lemma {:induction false} SettledWordsAreKept(c: Classifier, words: seq<string>)
    requires c.Settled(words)
    ensures c.RedactWords(words, 0) == words
  {
    if words != [] {
      assert c.SettledAt(words, 0);
      SettledTail(c, words);
      SettledWordsAreKept(c, words[1..]);
      assert words == [words[0]] + words[1..];
    }
  }

  lemma {:induction false} RedactedWords(c: Classifier, input: string)
    requires c.MaskIsInert()
    ensures Words(c.Redact(input)) == c.RedactWords(Words(input), 0)
    ensures c.Settled(Words(c.Redact(input)))
  {
    RedactedWordsAreSettled(c, Words(input), 0);
    WordsOfJoin(c.RedactWords(Words(input), 0));
  }

  lemma {:induction false} RedactIsIdempotent(c: Classifier, input: string)
    requires c.MaskIsInert()
    ensures c.Redact(c.Redact(input)) == c.Redact(input)
  {
    RedactedWords(c, input);
    SettledWordsAreKept(c, Words(c.Redact(input)));
  }

  /** A text is left alone exactly when it is single-spaced and none of its words is a secret. */
  lemma {:induction false} KeptExactlyWhenSettled(c: Classifier, input: string)
    requires c.MaskIsInert()
    ensures c.Redact(input) == input <==> Join(Words(input)) == input && c.Settled(Words(input))
  {
    RedactedWords(c, input);
    if c.Settled(Words(input)) { SettledWordsAreKept(c, Words(input)); }
  }

  // ---------------------------------------------------------------- what does not show

  /** Which words are values of a secret, masked or dropped without being read: those an assignment still covers and
      those of a `key = value` group behind its separator. */
  function Values(c: Classifier, words: seq<string>, following: nat): (r: seq<bool>)
    ensures |r| == |words|
  {
    if words == [] then []
    else if following > 0 then [true] + Values(c, words[1..], following - 1)
    else if c.StartsSeparatedSecret(words) then
      var n := c.SeparatedSpan(words);
      [false, false] + seq(n - 2, _ => true) + Values(c, words[n..], 0)
    else [false] + Values(c, words[1..], if c.tail(words[0]).Some? then c.tail(words[0]).value else 0)
  }

  /** The pass reads both words alike: as the same key, separator and assignment, and with the same outcome. */
  ghost predicate ReadAlike(c: Classifier, v: string, w: string) {
    && c.key(v) == c.key(w) && c.separator(v) == c.separator(w) && c.tail(v) == c.tail(w)
    && (c.tail(v).None? ==> c.plain(v) == c.plain(w))
  }

  /** Where the one list has a value of a secret, the other may have any word; only, right behind a key, both or
      neither have to be separators. Elsewhere the two words are read alike. */
  ghost predicate DifferAt(c: Classifier, us: seq<string>, vs: seq<string>, values: seq<bool>, i: nat)
    requires i < |us| == |vs| == |values|
  {
    if !values[i] then ReadAlike(c, us[i], vs[i])
    else i > 0 && !values[i - 1] && c.key(us[i - 1]).Some? ==> c.separator(us[i]) == c.separator(vs[i])
  }

  ghost predicate DifferInSecrets(c: Classifier, us: seq<string>, vs: seq<string>, following: nat) {
    |us| == |vs| && forall i | 0 <= i < |us| :: DifferAt(c, us, vs, Values(c, us, following), i)
  }

  /** From where the two lists are read in the same state, their rests differ in secrets as well. */
  lemma {:induction false} RestDiffersInSecrets(c: Classifier, us: seq<string>, vs: seq<string>, following: nat, n: nat,
                                                following': nat)
    requires DifferInSecrets(c, us, vs, following) && n <= |us|
    requires Values(c, us, following)[n..] == Values(c, us[n..], following')
    ensures DifferInSecrets(c, us[n..], vs[n..], following')
  {
    var values := Values(c, us, following);
    forall i | 0 <= i < |us[n..]| ensures DifferAt(c, us[n..], vs[n..], values[n..], i) {
      assert DifferAt(c, us, vs, values, n + i);
    }
  }

  /** Both lists begin a `key = value` group, of the same span, or neither does. */
  lemma {:induction false} GroupsAlike(c: Classifier, us: seq<string>, vs: seq<string>)
    requires us != [] && DifferInSecrets(c, us, vs, 0)
    ensures c.StartsSeparatedSecret(us) <==> c.StartsSeparatedSecret(vs)
    ensures c.StartsSeparatedSecret(us) ==> c.SeparatedSpan(us) == c.SeparatedSpan(vs)
  {
    var values := Values(c, us, 0);
    assert !values[0] && DifferAt(c, us, vs, values, 0);
    if |us| > 1 { assert DifferAt(c, us, vs, values, 1); }
  }

  /** The output does not depend on the secrets: word lists that differ only in them are redacted to the same. */
  lemma {:induction false} SecretsDoNotShow(c: Classifier, us: seq<string>, vs: seq<string>, following: nat)
    requires DifferInSecrets(c, us, vs, following)
    ensures c.RedactWords(us, following) == c.RedactWords(vs, following)
    decreases |us|
  {
    if us != [] {
      var n, following' := 1, 0;
      if following > 0 {
        following' := following - 1;
      } else {
        GroupsAlike(c, us, vs);
        if c.StartsSeparatedSecret(us) {
          n := c.SeparatedSpan(us);
        } else {
          assert !Values(c, us, 0)[0] && DifferAt(c, us, vs, Values(c, us, 0), 0);
          following' := if c.tail(us[0]).Some? then c.tail(us[0]).value else 0;
        }
      }
      assert Values(c, us, following)[n..] == Values(c, us[n..], following');
      RestDiffersInSecrets(c, us, vs, following, n, following');
      hide DifferInSecrets;
      SecretsDoNotShow(c, us[n..], vs[n..], following');
    }
  }

  /** The one thing that shows: a separator right behind a word that is both a key and an assignment is taken for the
      separator of a group, so that fewer words come out. */
  lemma {:induction false} SeparatorValueShows(c: Classifier, key: string, separator: string, value: string)
    requires c.key(key).Some? && c.tail(key).Some? && c.tail(key).value > 0
    requires c.separator(separator) && !c.separator(value)
    ensures Values(c, [key, value], 0) == [false, true]
    ensures c.RedactWords([key, value], 0) == [MASK, MASK] && c.RedactWords([key, separator], 0) == [MASK]
  {
    assert [key, value][1..] == [value] && [value][1..] == [];
    assert c.RedactWords([value], c.tail(key).value) == [MASK];
    assert Values(c, [value], c.tail(key).value) == [true];
  }

  /** One round of the pass: the word that is written, and where and how the pass goes on. */
  method RedactOne(c: Classifier, words: seq<string>, index: nat, following: nat)
    returns (word: string, index': nat, following': nat)
    requires index < |words|
    ensures index < index' <= |words|
    ensures c.RedactWords(words[index..], following) == [word] + c.RedactWords(words[index'..], following')
  {
    ghost var rest := words[index..];
    assert rest[1..] == words[index + 1..];
    if following > 0 { return MASK, index + 1, following - 1; }
    if c.key(words[index]).Some? && index + 1 < |words| && c.separator(words[index + 1]) {
      var available := |words| - (index + 2);
      var wanted := if c.key(words[index]).value then 2 else 1;
      var values := if wanted < available then wanted else available;
      assert rest[c.SeparatedSpan(rest)..] == words[index + 2 + values..];
      return MASK, index + 2 + values, 0;
    }
    match c.tail(words[index])
    case Some(n) => return MASK, index + 1, n;
    case None => return c.plain(words[index]), index + 1, 0;
  }

  /** The pass of the source: an index, a count of words still to mask and an output list. */
  method RedactByIndex(c: Classifier, input: string) returns (text: string)
    requires c.MaskIsInert()
    ensures text == c.Redact(input)
    ensures c.Redact(text) == text && c.Settled(Words(text))
  {
    hide Words, Join, IsWhitespace;
    var words := Words(input);
    var redacted: seq<string> := [];
    var following := 0;
    var index := 0;
    while index < |words|
      invariant 0 <= index <= |words|
      invariant c.RedactWords(words, 0) == redacted + c.RedactWords(words[index..], following)
    {
      var word: string;
      word, index, following := RedactOne(c, words, index, following);
      redacted := redacted + [word];
    }
    text := Join(redacted);
    assert redacted + [] == redacted;
    RedactIsIdempotent(c, input);
    RedactedWords(c, input);
  }

  // ---------------------------------------------------------------- the classifier of the source

  function SourceClassifier(): Classifier {
    Classifier(w => SecretAssignmentTail(w), w => StandaloneSecretKey(w), w => IsSeparator(w), w => RedactWord(w))
  }

  /** `redact_text`. */
  function RedactText(input: string): string {
    SourceClassifier().Redact(input)
  }

  lemma {:induction false} MaskIsNoKey()
    ensures StandaloneSecretKey(MASK).None? && !IsSeparator(MASK)
  {
    assert Normalize(MASK) == Normalize(MASK[1..]);
    assert Normalize(MASK)[0] == 'r';
  }

  lemma {:induction false} MaskHasNoTokenPrefix()
    ensures !HasPrefixIn(MASK, TokenPrefixes())
  {
    forall i | 0 <= i < |TokenPrefixes()| ensures !(TokenPrefixes()[i] <= MASK) {
      assert TokenPrefixes()[i][0] in "sg" && MASK[0] == '[';
    }
  }

  lemma {:induction false} MaskIsOrdinary()
    ensures SourceClassifier().MaskIsInert()
  {
    NoSeparatorNoAssignment(MASK);
    MaskIsNoKey();
  }

  /** Texts that differ only in secrets are redacted to the same text. */
  lemma {:induction false} SecretsDoNotShowInText(a: string, b: string)
    requires DifferInSecrets(SourceClassifier(), Words(a), Words(b), 0)
    ensures RedactText(a) == RedactText(b)
  {
    hide DifferInSecrets, Words, Join, SourceClassifier;
    SecretsDoNotShow(SourceClassifier(), Words(a), Words(b), 0);
  }

  /** The exception occurs: "token: =" comes out as one word, and "token:" with another word as two. */
  lemma {:induction false} SeparatorShowsInSource(value: string)
    requires !IsSeparator(value)
    ensures SourceClassifier().RedactWords(["token:", value], 0) == [MASK, MASK]
    ensures SourceClassifier().RedactWords(["token:", "="], 0) == [MASK]
  {
    assert IsSeparator("=");
    hide StandaloneSecretKey, SecretAssignmentTail, IsSeparator;
    KeyAndAssignment();
    SeparatorValueShows(SourceClassifier(), "token:", "=", value);
  }

  /** Redacting twice is redacting once, for every text. */
  lemma {:induction false} RedactTextIsIdempotent(input: string)
    ensures RedactText(RedactText(input)) == RedactText(input)
  {
    MaskIsOrdinary();
    RedactIsIdempotent(SourceClassifier(), input);
  }

  /** No word of redacted text assigns a secret or carries a token prefix, and no secret key is
      followed by a separator word. */
  lemma {:induction false} RedactedTextHasNoSecret(input: string, i: nat)
    requires i < |Words(RedactText(input))|
    ensures !IsSecretAssignment(Words(RedactText(input))[i])
    ensures !HasPrefixIn(Words(RedactText(input))[i], TokenPrefixes())
    ensures i + 1 < |Words(RedactText(input))| && StandaloneSecretKey(Words(RedactText(input))[i]).Some?
            ==> !IsSeparator(Words(RedactText(input))[i + 1])
  {
    MaskIsOrdinary();
    RedactedWords(SourceClassifier(), input);
    SettledWordIsNoSecret(Words(RedactText(input)), i);
  }

  lemma {:induction false} SettledWordIsNoSecret(words: seq<string>, i: nat)
    requires i < |words| && SourceClassifier().SettledAt(words, i)
    ensures !IsSecretAssignment(words[i]) && !HasPrefixIn(words[i], TokenPrefixes())
    ensures i + 1 < |words| && StandaloneSecretKey(words[i]).Some? ==> !IsSeparator(words[i + 1])
  {
    AssignmentSearchIsComplete(words[i]);
    MaskHasNoTokenPrefix();
  }

  /** A word free of `=` and `:` that is no secret key and has no token prefix is kept. */
  lemma {:induction false} PlainWordIsKept(w: string)
    requires IsWord(w) && '=' !in w && ':' !in w
    requires RedactWord(w) == w
    ensures RedactText(w) == w
  {
    hide StandaloneSecretKey, IsSeparator, RedactWord, SecretAssignmentTail, Words;
    NoSeparatorNoAssignment(w);
    WordsOfWord(w);
    var c := SourceClassifier();
    assert c.Settled([w]) by { assert c.SettledAt([w], 0); }
    SettledWordsAreKept(c, [w]);
  }
}
