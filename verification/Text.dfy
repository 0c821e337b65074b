/** The string operations the redactor and the validators rely on. */
module Text {
  import opened Prelude

  /** The characters with the Unicode White_Space property. */
  predicate IsWhitespace(c: char) {
    var n := c as int;
    || 9 <= n <= 13 || n == 0x20 || n == 0x85 || n == 0xA0 || n == 0x1680
    || 0x2000 <= n <= 0x200A || n == 0x2028 || n == 0x2029 || n == 0x202F || n == 0x205F || n == 0x3000
  }

  /** True when trimming leaves nothing. */
  predicate IsBlank(s: string) {
    forall i | 0 <= i < |s| :: IsWhitespace(s[i])
  }

  /** The length of the UTF-8 encoding. */
  function Utf8Length(s: string): nat {
    if s == [] then 0
    else
      var n := s[0] as int;
      (if n < 0x80 then 1 else if n < 0x800 then 2 else if n < 0x10000 then 3 else 4) + Utf8Length(s[1..])
  }

  predicate IsAsciiAlphanumeric(c: char) {
    'a' <= c <= 'z' || 'A' <= c <= 'Z' || '0' <= c <= '9'
  }

  function LowerChar(c: char): char {
    if 'A' <= c <= 'Z' then (c as int + 32) as char else c
  }

  function UpperChar(c: char): char {
    if 'a' <= c <= 'z' then (c as int - 32) as char else c
  }

  function Lower(s: string): (r: string)
    ensures |r| == |s| && forall i | 0 <= i < |s| :: r[i] == LowerChar(s[i])
  {
    seq(|s|, i requires 0 <= i < |s| => LowerChar(s[i]))
  }

  function Upper(s: string): (r: string)
    ensures |r| == |s| && forall i | 0 <= i < |s| :: r[i] == UpperChar(s[i])
  {
    seq(|s|, i requires 0 <= i < |s| => UpperChar(s[i]))
  }

  /** The lower-cased ASCII letters and digits of `s`, in order. */
  function Normalize(s: string): string {
    if s == [] then []
    else if IsAsciiAlphanumeric(s[0]) then [LowerChar(s[0])] + Normalize(s[1..])
    else Normalize(s[1..])
  }

  lemma {:induction false} NormalizeConcat(a: string, b: string)
    ensures Normalize(a + b) == Normalize(a) + Normalize(b)
  {
    if a == [] {
      assert a + b == b;
    } else {
      NormalizeConcat(a[1..], b);
      assert (a + b)[1..] == a[1..] + b;
    }
  }

  predicate IsPlain(s: string) {
    forall i | 0 <= i < |s| :: 'a' <= s[i] <= 'z' || '0' <= s[i] <= '9'
  }

  lemma {:induction false} NormalizePlain(s: string)
    requires IsPlain(s)
    ensures Normalize(s) == s
  {
    if s != [] { NormalizePlain(s[1..]); }
  }

  /** Two plain words joined by a character that is neither letter nor digit normalize to their concatenation. */
  lemma {:induction false} NormalizeJoined(a: string, mark: char, b: string)
    requires IsPlain(a) && IsPlain(b) && !IsAsciiAlphanumeric(mark)
    ensures Normalize(a + [mark] + b) == a + b
  {
    NormalizePlain(a);
    NormalizePlain(b);
    NormalizeConcat(a + [mark], b);
    NormalizeConcat(a, [mark]);
    assert [mark][1..] == [];
  }

  function TrimStart(s: string, padding: string): string {
    if s != [] && s[0] in padding then TrimStart(s[1..], padding) else s
  }

  function TrimEnd(s: string, padding: string): string {
    if s != [] && s[|s| - 1] in padding then TrimEnd(s[..|s| - 1], padding) else s
  }

  function Trim(s: string, padding: string): string {
    TrimEnd(TrimStart(s, padding), padding)
  }

  predicate OccursAt(s: string, part: string, p: nat) {
    p + |part| <= |s| && s[p..p + |part|] == part
  }

  /** The first position at or after `from` where `part` occurs. */
  function Find(s: string, part: string, from: nat): (r: Option<nat>)
    requires from <= |s|
    ensures r.Some? ==> from <= r.value && OccursAt(s, part, r.value)
    ensures r.Some? ==> forall p: nat | from <= p < r.value :: !OccursAt(s, part, p)
    ensures r.None? ==> forall p: nat | from <= p :: !OccursAt(s, part, p)
    decreases |s| - from
  {
    if OccursAt(s, part, from) then Some(from)
    else if from == |s| then None
    else Find(s, part, from + 1)
  }

  predicate HasPrefixIn(s: string, prefixes: seq<string>) {
    exists i | 0 <= i < |prefixes| :: prefixes[i] <= s
  }

  /** Trimming drops the padding before the first other character. */
  lemma {:induction false} TrimStartDrops(s: string, padding: string) returns (n: nat)
    ensures n <= |s| && TrimStart(s, padding) == s[n..]
    ensures (forall i | 0 <= i < n :: s[i] in padding) && (n < |s| ==> s[n] !in padding)
  {
    if s != [] && s[0] in padding {
      n := TrimStartDrops(s[1..], padding);
      assert forall i | 0 < i < n + 1 :: s[i] == s[1..][i - 1];
      assert s[1..][n..] == s[n + 1..];
      n := n + 1;
    } else {
      n := 0;
    }
  }

  lemma {:induction false} TrimEndDrops(s: string, padding: string) returns (n: nat)
    ensures n <= |s| && TrimEnd(s, padding) == s[..n]
    ensures (forall i | n <= i < |s| :: s[i] in padding) && (n > 0 ==> s[n - 1] !in padding)
  {
    if s != [] && s[|s| - 1] in padding {
      n := TrimEndDrops(s[..|s| - 1], padding);
      assert s[..|s| - 1][..n] == s[..n];
    } else {
      n := |s|;
    }
  }

  /** Trimming drops the padding before the first and behind the last other character. */
  lemma {:induction false} TrimDrops(s: string, padding: string) returns (m: nat, n: nat)
    ensures m <= n <= |s| && Trim(s, padding) == s[m..n]
    ensures (forall i | 0 <= i < m || n <= i < |s| :: s[i] in padding)
    ensures m < n ==> s[m] !in padding && s[n - 1] !in padding
  {
    m := TrimStartDrops(s, padding);
    var rest := s[m..];
    n := TrimEndDrops(rest, padding);
    assert forall i | m + n <= i < |s| :: s[i] == rest[i - m];
    assert rest[..n] == s[m..m + n];
    n := m + n;
  }

  lemma {:induction false} TrimIsEmpty(s: string, padding: string)
    ensures Trim(s, padding) == [] <==> forall i | 0 <= i < |s| :: s[i] in padding
  {
    var m, n := TrimDrops(s, padding);
  }

  // ---------------------------------------------------------------- words

  predicate IsWord(w: string) {
    w != [] && forall i | 0 <= i < |w| :: !IsWhitespace(w[i])
  }

  predicate AllWords(words: seq<string>) {
    forall i | 0 <= i < |words| :: IsWord(words[i])
  }

  /** The length of the longest prefix without whitespace. */
  function WordLength(s: string): (n: nat)
    ensures n <= |s|
    ensures forall i | 0 <= i < n :: !IsWhitespace(s[i])
    ensures n < |s| ==> IsWhitespace(s[n])
  {
    if s == [] || IsWhitespace(s[0]) then 0 else 1 + WordLength(s[1..])
  }

  function Words(s: string): (words: seq<string>)
    ensures AllWords(words)
    decreases |s|
  {
    if s == [] then []
    else if IsWhitespace(s[0]) then Words(s[1..])
    else [s[..WordLength(s)]] + Words(s[WordLength(s)..])
  }

  function Join(words: seq<string>): string {
    if words == [] then []
    else if |words| == 1 then words[0]
    else words[0] + " " + Join(words[1..])
  }

  lemma {:induction false} WordLengthOfWord(w: string, rest: string)
    requires IsWord(w) && (rest == [] || IsWhitespace(rest[0]))
    ensures WordLength(w + rest) == |w|
  {
    var all := w + rest;
    assert forall i | 0 <= i < |w| :: all[i] == w[i];
    assert rest != [] ==> all[|w|] == rest[0];
  }

  lemma {:induction false} WordsOfWord(w: string)
    requires IsWord(w)
    ensures Words(w) == [w]
  {
    WordLengthOfWord(w, []);
    assert w + [] == w && w[..|w|] == w;
  }

  /** Splitting undoes joining. */
  lemma {:induction false} WordsOfJoin(words: seq<string>)
    requires AllWords(words)
    ensures Words(Join(words)) == words
  {
    if |words| == 1 {
      WordsOfWord(words[0]);
    } else if |words| > 1 {
      var w, tail := words[0], Join(words[1..]);
      var rest := " " + tail;
      WordLengthOfWord(w, rest);
      assert Join(words) == w + rest;
      assert (w + rest)[..|w|] == w && (w + rest)[|w|..] == rest;
      assert rest[1..] == tail;
      WordsOfJoin(words[1..]);
    }
  }
}
