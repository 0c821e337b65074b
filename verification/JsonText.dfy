/** Structured data printed as text, as it is hashed: compact, strings escaped. Different data has different text. */
module JsonText {
  import opened Prelude
  import opened JsonRedaction

  // ---------------------------------------------------------------- printing

  function HexDigit(d: int): char
    requires 0 <= d < 16
  {
    "0123456789abcdef"[d]
  }

  predicate IsControl(c: char) {
    c as int < 0x20
  }

  /** The letter after the backslash for the characters that have a short escape. */
  function ShortEscape(c: char): Option<char> {
    if c == '"' then Some('"')
    else if c == '\\' then Some('\\')
    else if c as int == 8 then Some('b')
    else if c as int == 9 then Some('t')
    else if c as int == 10 then Some('n')
    else if c as int == 12 then Some('f')
    else if c as int == 13 then Some('r')
    else None
  }

  function Escape(c: char): string {
    if ShortEscape(c).Some? then ['\\', ShortEscape(c).value]
    else if IsControl(c) then ['\\', 'u', '0', '0', HexDigit(c as int / 16), HexDigit(c as int % 16)]
    else [c]
  }

  function EscapeAll(s: string): string {
    if s == [] then [] else Escape(s[0]) + EscapeAll(s[1..])
  }

  /** The rest of a string from inside its quotes. */
  function Closed(s: string): string {
    EscapeAll(s) + ['"']
  }

  function Digits(n: nat): string {
    if n < 10 then [HexDigit(n)] else Digits(n / 10) + [HexDigit(n % 10)]
  }

  function Decimal(n: int): string {
    if n < 0 then ['-'] + Digits(-n) else Digits(n)
  }

  function Print(value: Json): string {
    match value
    case Null => "null"
    case Bool(truth) => if truth then "true" else "false"
    case Number(n) => Decimal(n)
    case Str(text) => ['"'] + Closed(text)
    case Arr(values) => ['['] + if values == [] then [']'] else Print(values[0]) + RestOfItems(values[1..])
    case Obj(entries) =>
      ['{'] + if entries == [] then ['}'] else PrintEntry(entries[0]) + RestOfEntries(entries[1..])
  }

  function PrintEntry(e: Entry): string {
    ['"'] + Closed(e.key) + [':'] + Print(e.value)
  }

  function RestOfItems(values: seq<Json>): string {
    if values == [] then [']'] else [','] + Print(values[0]) + RestOfItems(values[1..])
  }

  function RestOfEntries(entries: seq<Entry>): string {
    if entries == [] then ['}'] else [','] + PrintEntry(entries[0]) + RestOfEntries(entries[1..])
  }

  // ---------------------------------------------------------------- reading back

  /** Equal texts that begin alike go on alike. */
  lemma {:induction false} Cancel(a: string, b: string, x: string, y: string)
    requires |a| == |b| && a + x == b + y
    ensures a == b && x == y
  {
    assert a == (a + x)[..|a|] == (b + y)[..|b|] == b;
    assert x == (a + x)[|a|..] == (b + y)[|b|..] == y;
  }

  /** The same behind heads of equal length. */
  lemma {:induction false} CancelHeads(a: string, b: string, u: string, v: string, x: string, y: string)
    requires |a| == |b| && (a + u) + x == (b + v) + y
    ensures a == b && u + x == v + y
  {
    Regroup(a, u, x);
    Regroup(b, v, y);
    Cancel(a, b, u + x, v + y);
  }

  lemma {:induction false} Regroup(a: string, u: string, x: string)
    ensures (a + u) + x == a + (u + x)
  {
  }

  lemma {:induction false} HexDigitsDiffer(d: int, e: int)
    requires 0 <= d < 16 && 0 <= e < 16 && HexDigit(d) == HexDigit(e)
    ensures d == e
  {
  }

  lemma {:induction false} ControlsDiffer(c: char, d: char)
    requires IsControl(c) && IsControl(d)
    requires HexDigit(c as int / 16) == HexDigit(d as int / 16) && HexDigit(c as int % 16) == HexDigit(d as int % 16)
    ensures c == d
  {
    HexDigitsDiffer(c as int / 16, d as int / 16);
    HexDigitsDiffer(c as int % 16, d as int % 16);
  }

  lemma {:induction false} EscapesReadBack(c: char, d: char, x: string, y: string)
    requires Escape(c) + x == Escape(d) + y
    ensures c == d && x == y
  {
    hide HexDigit;
    var s, t := Escape(c) + x, Escape(d) + y;
    assert s[0] == Escape(c)[0] && t[0] == Escape(d)[0];
    if |Escape(c)| > 1 && |Escape(d)| > 1 {
      assert s[1] == Escape(c)[1] && t[1] == Escape(d)[1];
      if |Escape(c)| == 6 && |Escape(d)| == 6 {
        assert s[4] == Escape(c)[4] && t[4] == Escape(d)[4] && s[5] == Escape(c)[5] && t[5] == Escape(d)[5];
        ControlsDiffer(c, d);
      }
    }
    assert |Escape(c)| == |Escape(d)|;
    Cancel(Escape(c), Escape(d), x, y);
  }

  lemma {:induction false} ClosedSplits(s: string)
    requires s != []
    ensures Closed(s) == Escape(s[0]) + Closed(s[1..])
  {
  }

  lemma {:induction false} StringsReadBack(s: string, t: string, x: string, y: string)
    requires Closed(s) + x == Closed(t) + y
    ensures s == t && x == y
    decreases |s|
  {
    if s == [] || t == [] {
      QuoteEndsString(s, t, x, y);
    } else {
      ClosedSplits(s);
      ClosedSplits(t);
      hide Closed, Escape;
      Regroup(Escape(s[0]), Closed(s[1..]), x);
      Regroup(Escape(t[0]), Closed(t[1..]), y);
      EscapesReadBack(s[0], t[0], Closed(s[1..]) + x, Closed(t[1..]) + y);
      StringsReadBack(s[1..], t[1..], x, y);
      assert s == [s[0]] + s[1..] && t == [t[0]] + t[1..];
    }
  }

  lemma {:induction false} ClosedOpening(s: string, x: string)
    ensures s == [] ==> Closed(s) == ['"']
    ensures (Closed(s) + x)[0] == '"' <==> s == []
  {
  }

  /** No escaped character begins with a quote. */
  lemma {:induction false} QuoteEndsString(s: string, t: string, x: string, y: string)
    requires Closed(s) + x == Closed(t) + y && (s == [] || t == [])
    ensures s == t && x == y
  {
    hide Closed;
    ClosedOpening(s, x);
    ClosedOpening(t, y);
    Cancel(Closed(s), Closed(t), x, y);
  }

  predicate IsDigit(c: char) {
    '0' <= c <= '9'
  }

  /** The text does not go on with a digit. */
  predicate NoDigit(x: string) {
    x != [] ==> !IsDigit(x[0])
  }

  lemma {:induction false} DigitsAreDigits(n: nat)
    ensures Digits(n) != [] && forall i | 0 <= i < |Digits(n)| :: IsDigit(Digits(n)[i])
  {
    if n >= 10 { DigitsAreDigits(n / 10); }
  }

  lemma {:induction false} LastDigit(n: nat)
    ensures var s := Digits(n);
            s != [] && s[|s| - 1] == HexDigit(n % 10) && s[..|s| - 1] == if n < 10 then [] else Digits(n / 10)
  {
    hide HexDigit;
  }

  lemma {:induction false} DigitsAreInjective(a: nat, b: nat)
    requires Digits(a) == Digits(b)
    ensures a == b
  {
    hide Digits, HexDigit;
    LastDigit(a);
    LastDigit(b);
    LastDigit(a / 10);
    LastDigit(b / 10);
    HexDigitsDiffer(a % 10, b % 10);
    if a >= 10 && b >= 10 { DigitsAreInjective(a / 10, b / 10); }
  }

  ghost predicate AllDigits(s: string) {
    forall i | 0 <= i < |s| :: IsDigit(s[i])
  }

  lemma {:induction false} DigitsEnd(a: string, b: string, x: string, y: string)
    requires AllDigits(b) && NoDigit(x) && a + x == b + y
    ensures |b| <= |a|
  {
    assert forall i | 0 <= i < |b| :: (b + y)[i] == b[i];
    assert x != [] ==> (a + x)[|a|] == x[0];
  }

  lemma {:induction false} NumbersReadBack(a: nat, b: nat, x: string, y: string)
    requires Digits(a) + x == Digits(b) + y && NoDigit(x) && NoDigit(y)
    ensures a == b && x == y
  {
    hide Digits;
    DigitsAreDigits(a);
    DigitsAreDigits(b);
    DigitsEnd(Digits(a), Digits(b), x, y);
    DigitsEnd(Digits(b), Digits(a), y, x);
    Cancel(Digits(a), Digits(b), x, y);
    DigitsAreInjective(a, b);
  }

  lemma {:induction false} SignShows(n: int, x: string)
    ensures Decimal(n) != [] && ((Decimal(n) + x)[0] == '-' <==> n < 0)
  {
    DigitsAreDigits(if n < 0 then -n else n);
    hide Digits;
  }

  lemma {:induction false} DecimalsReadBack(a: int, b: int, x: string, y: string)
    requires Decimal(a) + x == Decimal(b) + y && NoDigit(x) && NoDigit(y)
    ensures a == b && x == y
  {
    hide Digits, NoDigit;
    SignShows(a, x);
    SignShows(b, y);
    if a < 0 {
      CancelHeads(['-'], ['-'], Digits(-a), Digits(-b), x, y);
      NumbersReadBack(-a, -b, x, y);
    } else {
      NumbersReadBack(a, b, x, y);
    }
  }

  // ---------------------------------------------------------------- values

  /** What kind of value a text begins. */
  function Opening(value: Json): char {
    match value
    case Null => 'n'
    case Bool(truth) => if truth then 't' else 'f'
    case Number(_) => '0'
    case Str(_) => '"'
    case Arr(_) => '['
    case Obj(_) => '{'
  }

  function Sort(c: char): char {
    if IsDigit(c) || c == '-' then '0' else c
  }

  lemma {:induction false} OpensWith(value: Json)
    ensures Print(value) != [] && Sort(Print(value)[0]) == Opening(value)
  {
    if value.Number? { DigitsAreDigits(if value.number < 0 then -value.number else value.number); }
    hide Digits, Closed, RestOfItems, RestOfEntries;
  }

  lemma {:induction false} SameOpening(a: Json, b: Json, x: string, y: string)
    requires Print(a) + x == Print(b) + y
    ensures Opening(a) == Opening(b)
  {
    hide Print, Opening;
    OpensWith(a);
    OpensWith(b);
    assert (Print(a) + x)[0] == Print(a)[0] && (Print(b) + y)[0] == Print(b)[0];
  }

  /** What follows a value in a text: nothing, or a separator or bracket. */
  predicate Follows(x: string) {
    x != [] ==> x[0] == ',' || x[0] == ']' || x[0] == '}'
  }

  lemma {:induction false} RestFollows(values: seq<Json>, entries: seq<Entry>, x: string)
    ensures Follows(RestOfItems(values) + x) && Follows(RestOfEntries(entries) + x)
  {
    hide Print, PrintEntry;
  }

  /** From a text that begins with a value, the value and what follows it can be read back in one way only. */
  lemma {:induction false} ReadsBack(a: Json, b: Json, x: string, y: string)
    requires Print(a) + x == Print(b) + y && Follows(x) && Follows(y)
    ensures a == b && x == y
    decreases a, 1
  {
    SameOpening(a, b, x, y);
    hide Digits, Closed, RestOfItems, RestOfEntries, PrintEntry, Decimal;
    match a {
      case Null => Cancel("null", "null", x, y);
      case Bool(truth) => Cancel(Print(a), Print(b), x, y);
      case Number(n) => DecimalsReadBack(n, b.number, x, y);
      case Str(text) =>
        CancelHeads(['"'], ['"'], Closed(text), Closed(b.text), x, y);
        StringsReadBack(text, b.text, x, y);
      case Arr(values) => ArraysReadBack(a, b, x, y);
      case Obj(entries) => ObjectsReadBack(a, b, x, y);
    }
  }

  function Items(values: seq<Json>): string {
    if values == [] then [']'] else Print(values[0]) + RestOfItems(values[1..])
  }

  function Fields(entries: seq<Entry>): string {
    if entries == [] then ['}'] else PrintEntry(entries[0]) + RestOfEntries(entries[1..])
  }

  lemma {:induction false} ArraysReadBack(a: Json, b: Json, x: string, y: string)
    requires a.Arr? && b.Arr? && Print(a) + x == Print(b) + y
    ensures a == b && x == y
    decreases a, 0
  {
    var vs, ws := a.values, b.values;
    assert Print(a) == ['['] + Items(vs) && Print(b) == ['['] + Items(ws);
    CancelHeads(['['], ['['], Items(vs), Items(ws), x, y);
    if vs == [] || ws == [] {
      EmptyArrayReadsBack(vs, ws, x, y);
    } else {
      hide Print, RestOfItems;
      Regroup(Print(vs[0]), RestOfItems(vs[1..]), x);
      Regroup(Print(ws[0]), RestOfItems(ws[1..]), y);
      RestFollows(vs[1..], [], x);
      RestFollows(ws[1..], [], y);
      ReadsBack(vs[0], ws[0], RestOfItems(vs[1..]) + x, RestOfItems(ws[1..]) + y);
      ItemsReadBack(vs[1..], ws[1..], x, y);
      assert vs == [vs[0]] + vs[1..] && ws == [ws[0]] + ws[1..];
    }
  }

  lemma {:induction false} ItemsOpening(values: seq<Json>, x: string)
    ensures values == [] ==> Items(values) == [']']
    ensures (Items(values) + x)[0] == ']' <==> values == []
  {
    if values != [] { OpensWith(values[0]); }
    hide Print, RestOfItems;
  }

  lemma {:induction false} EmptyArrayReadsBack(vs: seq<Json>, ws: seq<Json>, x: string, y: string)
    requires (vs == [] || ws == []) && Items(vs) + x == Items(ws) + y
    ensures vs == ws && x == y
  {
    hide Items;
    ItemsOpening(vs, x);
    ItemsOpening(ws, y);
    Cancel(Items(vs), Items(ws), x, y);
  }

  lemma {:induction false} ItemsReadBack(vs: seq<Json>, ws: seq<Json>, x: string, y: string)
    requires RestOfItems(vs) + x == RestOfItems(ws) + y
    ensures vs == ws && x == y
    decreases vs, 0
  {
    hide Print;
    assert (RestOfItems(vs) + x)[0] == (RestOfItems(ws) + y)[0];
    if vs == [] {
      Cancel([']'], [']'], x, y);
    } else {
      var u, v := RestOfItems(vs[1..]) + x, RestOfItems(ws[1..]) + y;
      assert RestOfItems(vs) + x == [','] + (Print(vs[0]) + u) && RestOfItems(ws) + y == [','] + (Print(ws[0]) + v);
      hide RestOfItems;
      Cancel([','], [','], Print(vs[0]) + u, Print(ws[0]) + v);
      RestFollows(vs[1..], [], x);
      RestFollows(ws[1..], [], y);
      ReadsBack(vs[0], ws[0], u, v);
      ItemsReadBack(vs[1..], ws[1..], x, y);
      assert vs == [vs[0]] + vs[1..] && ws == [ws[0]] + ws[1..];
    }
  }

  lemma {:induction false} ObjectsReadBack(a: Json, b: Json, x: string, y: string)
    requires a.Obj? && b.Obj? && Print(a) + x == Print(b) + y
    ensures a == b && x == y
    decreases a, 0
  {
    var es, fs := a.entries, b.entries;
    assert Print(a) == ['{'] + Fields(es) && Print(b) == ['{'] + Fields(fs);
    CancelHeads(['{'], ['{'], Fields(es), Fields(fs), x, y);
    if es == [] || fs == [] {
      EmptyObjectReadsBack(es, fs, x, y);
    } else {
      hide PrintEntry, RestOfEntries;
      Regroup(PrintEntry(es[0]), RestOfEntries(es[1..]), x);
      Regroup(PrintEntry(fs[0]), RestOfEntries(fs[1..]), y);
      RestFollows([], es[1..], x);
      RestFollows([], fs[1..], y);
      EntryReadsBack(es[0], fs[0], RestOfEntries(es[1..]) + x, RestOfEntries(fs[1..]) + y);
      EntriesReadBack(es[1..], fs[1..], x, y);
      assert es == [es[0]] + es[1..] && fs == [fs[0]] + fs[1..];
    }
  }

  lemma {:induction false} EmptyObjectReadsBack(es: seq<Entry>, fs: seq<Entry>, x: string, y: string)
    requires (es == [] || fs == []) && Fields(es) + x == Fields(fs) + y
    ensures es == fs && x == y
  {
    hide RestOfEntries, Closed;
    assert (Fields(es) + x)[0] == (Fields(fs) + y)[0];
    Cancel(['}'], ['}'], x, y);
  }

  lemma {:induction false} EntryReadsBack(e: Entry, f: Entry, x: string, y: string)
    requires PrintEntry(e) + x == PrintEntry(f) + y && Follows(x) && Follows(y)
    ensures e == f && x == y
    decreases e, 2
  {
    hide Closed, Print;
    var u, v := [':'] + (Print(e.value) + x), [':'] + (Print(f.value) + y);
    assert PrintEntry(e) + x == ['"'] + (Closed(e.key) + u) && PrintEntry(f) + y == ['"'] + (Closed(f.key) + v);
    Cancel(['"'], ['"'], Closed(e.key) + u, Closed(f.key) + v);
    StringsReadBack(e.key, f.key, u, v);
    Cancel([':'], [':'], Print(e.value) + x, Print(f.value) + y);
    ReadsBack(e.value, f.value, x, y);
  }

  lemma {:induction false} EntriesReadBack(es: seq<Entry>, fs: seq<Entry>, x: string, y: string)
    requires RestOfEntries(es) + x == RestOfEntries(fs) + y
    ensures es == fs && x == y
    decreases es, 0
  {
    hide PrintEntry;
    assert (RestOfEntries(es) + x)[0] == (RestOfEntries(fs) + y)[0];
    if es == [] {
      Cancel(['}'], ['}'], x, y);
    } else {
      var u, v := RestOfEntries(es[1..]) + x, RestOfEntries(fs[1..]) + y;
      assert RestOfEntries(es) + x == [','] + (PrintEntry(es[0]) + u);
      assert RestOfEntries(fs) + y == [','] + (PrintEntry(fs[0]) + v);
      hide RestOfEntries;
      Cancel([','], [','], PrintEntry(es[0]) + u, PrintEntry(fs[0]) + v);
      RestFollows([], es[1..], x);
      RestFollows([], fs[1..], y);
      EntryReadsBack(es[0], fs[0], u, v);
      EntriesReadBack(es[1..], fs[1..], x, y);
      assert es == [es[0]] + es[1..] && fs == [fs[0]] + fs[1..];
    }
  }

  /** Different data is printed differently. */
  lemma {:induction false} PrintIsInjective(a: Json, b: Json)
    requires Print(a) == Print(b)
    ensures a == b
  {
    hide Print;
    assert Print(a) + "" == Print(a) && Print(b) + "" == Print(b);
    ReadsBack(a, b, "", "");
  }
}
