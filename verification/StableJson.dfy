/**
 * The canonical JSON text that hashes and cache keys are taken of, and a parser that undoes it. Text is a sequence of
 * 16-bit code units, as JavaScript's strings are.
 */
module StableJson {
  import opened Common

  type Unit = u: int | 0 <= u < 0x1_0000

  type Text = seq<Unit>

  const QUOTE: Unit := '"' as int
  const COMMA: Unit := ',' as int
  const COLON: Unit := ':' as int
  const OPEN: Unit := '[' as int
  const ESCAPE: Unit := '\\' as int
  const CLOSE: Unit := ']' as int
  const OPEN_BRACE: Unit := '{' as int
  const CLOSE_BRACE: Unit := '}' as int
  const LETTER_U: Unit := 'u' as int

  const NULL: Text := ['n' as int, 'u' as int, 'l' as int, 'l' as int]
  const TRUE: Text := ['t' as int, 'r' as int, 'u' as int, 'e' as int]
  const FALSE: Text := ['f' as int, 'a' as int, 'l' as int, 's' as int, 'e' as int]

  datatype Pair<T> = Pair(key: Text, value: T)

  /** A value to print. A finite number is its shortest decimal text; NaN and the infinities are `NonFinite`. */
  datatype Json =
    | Undefined
    | Null
    | Bool(b: bool)
    | Num(text: Text)
    | NonFinite
    | Str(s: Text)
    | Arr(items: seq<Json>)
    | Obj(fields: seq<Pair<Json>>)

  // ----- strings -----

  predicate High(u: Unit) { 0xd800 <= u < 0xdc00 }

  predicate Low(u: Unit) { 0xdc00 <= u < 0xe000 }

  function HexDigit(d: int): Unit
    requires 0 <= d < 16
  {
    if d < 10 then 0x30 + d else 0x57 + d
  }

  function UnicodeEscape(u: Unit): Text {
    [ESCAPE, LETTER_U, HexDigit(u / 4096), HexDigit(u / 256 % 16), HexDigit(u / 16 % 16), HexDigit(u % 16)]
  }

  /** The letter of a two-unit escape, or 0 when the unit has none. */
  function Short(u: Unit): Unit {
    if u == QUOTE then QUOTE
    else if u == ESCAPE then ESCAPE
    else if u == 8 then 0x62
    else if u == 9 then 0x74
    else if u == 10 then 0x6e
    else if u == 12 then 0x66
    else if u == 13 then 0x72
    else 0
  }

  function EscapedUnit(u: Unit): Text {
    if Short(u) != 0 then [ESCAPE, Short(u)]
    else if u < 0x20 || High(u) || Low(u) then UnicodeEscape(u)
    else [u]
  }

  /** The text of a string between its quotes: a surrogate pair stays, a lone surrogate is escaped. */
  function Escaped(s: Text): Text {
    if s == [] then []
    else if |s| >= 2 && High(s[0]) && Low(s[1]) then s[..2] + Escaped(s[2..])
    else EscapedUnit(s[0]) + Escaped(s[1..])
  }

  function Quoted(s: Text): Text { [QUOTE] + Escaped(s) + [QUOTE] }

  // ----- key order -----

  /** The order of sorting: code unit by code unit, a prefix first. */
  predicate Less(a: Text, b: Text) {
    if b == [] then false
    else if a == [] then true
    else a[0] < b[0] || (a[0] == b[0] && Less(a[1..], b[1..]))
  }

  function Insert<T>(p: Pair<T>, ps: seq<Pair<T>>): seq<Pair<T>> {
    if ps == [] || Less(p.key, ps[0].key) then [p] + ps else [ps[0]] + Insert(p, ps[1..])
  }

  function Sort<T>(ps: seq<Pair<T>>): seq<Pair<T>> {
    if ps == [] then [] else Insert(ps[0], Sort(ps[1..]))
  }

  // ----- the printer -----

  function Stringify(v: Json): Text
    decreases v, 1
  {
    match v
    case Undefined => NULL
    case Null => NULL
    case NonFinite => NULL
    case Bool(b) => if b then TRUE else FALSE
    case Num(text) => text
    case Str(s) => Quoted(s)
    case Arr(items) => [OPEN] + Join(Printed(items)) + [CLOSE]
    case Obj(fields) => [OPEN_BRACE] + Join(FieldTexts(Sort(PrintedFields(fields)))) + [CLOSE_BRACE]
  }

  function Printed(items: seq<Json>): (texts: seq<Text>)
    ensures |texts| == |items|
    decreases items, 0
  {
    if items == [] then [] else [Stringify(items[0])] + Printed(items[1..])
  }

  /** The fields that are defined, in their own order, with their values printed. */
  function PrintedFields(fields: seq<Pair<Json>>): seq<Pair<Text>>
    decreases fields, 0
  {
    if fields == [] then []
    else
      var f := fields[0];
      (if f.value.Undefined? then [] else [Pair(f.key, Stringify(f.value))]) + PrintedFields(fields[1..])
  }

  function FieldText(p: Pair<Text>): Text { Quoted(p.key) + [COLON] + p.value }

  function FieldTexts(ps: seq<Pair<Text>>): (texts: seq<Text>)
    ensures |texts| == |ps|
  {
    if ps == [] then [] else [FieldText(ps[0])] + FieldTexts(ps[1..])
  }

  function Join(texts: seq<Text>): Text {
    if texts == [] then [] else if |texts| == 1 then texts[0] else texts[0] + [COMMA] + Join(texts[1..])
  }

  // ----- the normal form -----

  /** Keys sorted, undefined fields dropped; an undefined item, or a number that is not finite, is null. */
  function Normal(v: Json): Json
    decreases v, 1
  {
    match v
    case Undefined => Null
    case NonFinite => Null
    case Arr(items) => Arr(NormalItems(items))
    case Obj(fields) => Obj(Sort(NormalFields(fields)))
    case _ => v
  }

  function NormalItems(items: seq<Json>): (r: seq<Json>)
    ensures |r| == |items|
    decreases items, 0
  {
    if items == [] then [] else [Normal(items[0])] + NormalItems(items[1..])
  }

  function NormalFields(fields: seq<Pair<Json>>): seq<Pair<Json>>
    decreases fields, 0
  {
    if fields == [] then []
    else
      var f := fields[0];
      (if f.value.Undefined? then [] else [Pair(f.key, Normal(f.value))]) + NormalFields(fields[1..])
  }

  // ----- the parser -----

  datatype Parse<T> = Fail | Got(value: T, rest: Text)

  function HexValue(u: Unit): int {
    if 0x30 <= u < 0x3a then u - 0x30
    else if 0x41 <= u < 0x47 then u - 0x37
    else if 0x61 <= u < 0x67 then u - 0x57
    else -1
  }

  predicate IsHex(t: Text) { forall i :: 0 <= i < |t| ==> HexValue(t[i]) >= 0 }

  function HexUnit(t: Text): Unit
    requires |t| == 4 && IsHex(t)
  {
    HexValue(t[0]) * 4096 + HexValue(t[1]) * 256 + HexValue(t[2]) * 16 + HexValue(t[3])
  }

  /** The unit a short escape's letter stands for, or none. */
  function Unshort(e: Unit): int {
    if e == QUOTE then QUOTE
    else if e == ESCAPE then ESCAPE
    else if e == 0x2f then 0x2f
    else if e == 0x62 then 8
    else if e == 0x74 then 9
    else if e == 0x6e then 10
    else if e == 0x66 then 12
    else if e == 0x72 then 13
    else -1
  }

  /** The string whose text, up to the closing quote, starts here: the grammar of section 7 of RFC 8259. */
  function ParseString(t: Text): (r: Parse<Text>)
    ensures r.Got? ==> |r.rest| < |t|
  {
    if t == [] then Fail
    else if t[0] == QUOTE then Got([], t[1..])
    else if t[0] < 0x20 then Fail
    else if t[0] != ESCAPE then Prefixed(t[0], ParseString(t[1..]))
    else if |t| < 2 then Fail
    else if Unshort(t[1]) >= 0 then Prefixed(Unshort(t[1]), ParseString(t[2..]))
    else if t[1] == LETTER_U && |t| >= 6 && IsHex(t[2..6]) then Prefixed(HexUnit(t[2..6]), ParseString(t[6..]))
    else Fail
  }

  function Prefixed(u: Unit, r: Parse<Text>): Parse<Text> { if r.Fail? then Fail else Got([u] + r.value, r.rest) }

  predicate NumberUnit(u: Unit) { 0x30 <= u <= 0x39 || u == 0x2d || u == 0x2b || u == 0x2e || u == 0x65 || u == 0x45 }

  function NumberSpan(t: Text): (n: nat)
    ensures n <= |t|
  {
    if t == [] || !NumberUnit(t[0]) then 0 else 1 + NumberSpan(t[1..])
  }

  predicate Starts(t: Text, word: Text) { word <= t }

  function ParseValue(t: Text): (r: Parse<Json>)
    ensures r.Got? ==> |r.rest| < |t|
    decreases |t|, 1
  {
    if Starts(t, NULL) then Got(Null, t[4..])
    else if Starts(t, TRUE) then Got(Bool(true), t[4..])
    else if Starts(t, FALSE) then Got(Bool(false), t[5..])
    else if t == [] then Fail
    else if t[0] == QUOTE then
      var s := ParseString(t[1..]);
      if s.Fail? then Fail else Got(Str(s.value), s.rest)
    else if t[0] == OPEN then
      if |t| > 1 && t[1] == CLOSE then Got(Arr([]), t[2..])
      else
        var r := ParseItems(t[1..]);
        if r.Fail? then Fail else Got(Arr(r.value), r.rest)
    else if t[0] == OPEN_BRACE then
      if |t| > 1 && t[1] == CLOSE_BRACE then Got(Obj([]), t[2..])
      else
        var r := ParseFields(t[1..]);
        if r.Fail? then Fail else Got(Obj(r.value), r.rest)
    else
      var n := NumberSpan(t);
      if n == 0 then Fail else Got(Num(t[..n]), t[n..])
  }

  function ParseItems(t: Text): (r: Parse<seq<Json>>)
    ensures r.Got? ==> |r.rest| < |t|
    decreases |t|, 2
  {
    var v := ParseValue(t);
    if v.Fail? || v.rest == [] then Fail
    else if v.rest[0] == CLOSE then Got([v.value], v.rest[1..])
    else if v.rest[0] != COMMA then Fail
    else
      var more := ParseItems(v.rest[1..]);
      if more.Fail? then Fail else Got([v.value] + more.value, more.rest)
  }

  function ParseFields(t: Text): (r: Parse<seq<Pair<Json>>>)
    ensures r.Got? ==> |r.rest| < |t|
    decreases |t|, 0
  {
    if t == [] || t[0] != QUOTE then Fail
    else
      var key := ParseString(t[1..]);
      if key.Fail? || key.rest == [] || key.rest[0] != COLON then Fail
      else
        var v := ParseValue(key.rest[1..]);
        if v.Fail? || v.rest == [] then Fail
        else if v.rest[0] == CLOSE_BRACE then Got([Pair(key.value, v.value)], v.rest[1..])
        else if v.rest[0] != COMMA then Fail
        else
          var more := ParseFields(v.rest[1..]);
          if more.Fail? then Fail else Got([Pair(key.value, v.value)] + more.value, more.rest)
  }

  // ----- strings come back -----

  lemma HexComesBack(u: Unit)
    ensures HexValue(HexDigit(u / 4096)) == u / 4096 && HexValue(HexDigit(u / 256 % 16)) == u / 256 % 16
    ensures HexValue(HexDigit(u / 16 % 16)) == u / 16 % 16 && HexValue(HexDigit(u % 16)) == u % 16
    ensures u == u / 4096 * 4096 + u / 256 % 16 * 256 + u / 16 % 16 * 16 + u % 16
  {
    assert u / 256 == u / 4096 * 16 + u / 256 % 16;
    assert u / 16 == u / 256 * 16 + u / 16 % 16;
  }

  /** One escaped unit is read back, whatever follows. */
  lemma UnitComesBack(u: Unit, tail: Text)
    ensures ParseString(EscapedUnit(u) + tail) == Prefixed(u, ParseString(tail))
  {
    hide ParseString, UnicodeEscape, Prefixed;
    if Short(u) != 0 {
      ShortComesBack(u, tail);
    } else if u < 0x20 || High(u) || Low(u) {
      NumberUnitComesBack(u, tail);
    } else {
      PlainComesBack(u, tail);
    }
  }

  lemma ShortComesBack(u: Unit, tail: Text)
    requires Short(u) != 0
    ensures ParseString([ESCAPE, Short(u)] + tail) == Prefixed(u, ParseString(tail))
  {
    var t := [ESCAPE, Short(u)] + tail;
    assert t[0] == ESCAPE && t[1] == Short(u) && t[2..] == tail;
    assert Unshort(Short(u)) == u;
    hide Short, Prefixed, HexUnit, IsHex;
  }

  lemma NumberUnitComesBack(u: Unit, tail: Text)
    ensures ParseString(UnicodeEscape(u) + tail) == Prefixed(u, ParseString(tail))
  {
    var number := [HexDigit(u / 4096), HexDigit(u / 256 % 16), HexDigit(u / 16 % 16), HexDigit(u % 16)];
    var t := UnicodeEscape(u) + tail;
    HexComesBack(u);
    assert t[0] == ESCAPE && t[1] == LETTER_U && t[2..6] == number && t[6..] == tail;
    assert IsHex(number) && HexUnit(number) == u;
    assert Unshort(LETTER_U) < 0;
    hide HexUnit, IsHex, UnicodeEscape, HexDigit, HexValue, Prefixed;
  }

  lemma PlainComesBack(u: Unit, tail: Text)
    requires u >= 0x20 && u != QUOTE && u != ESCAPE
    ensures ParseString([u] + tail) == Prefixed(u, ParseString(tail))
  {
    assert ([u] + tail)[1..] == tail;
  }

  lemma QuoteEnds(rest: Text)
    ensures ParseString([QUOTE] + rest) == Got([], rest)
  {
    assert ([QUOTE] + rest)[1..] == rest;
  }

  lemma EscapedPair(s: Text)
    requires |s| >= 2 && High(s[0]) && Low(s[1])
    ensures Escaped(s) == [s[0]] + ([s[1]] + Escaped(s[2..])) && s == [s[0]] + ([s[1]] + s[2..])
  {
    hide EscapedUnit;
  }

  lemma EscapedOne(s: Text)
    requires s != [] && !(|s| >= 2 && High(s[0]) && Low(s[1]))
    ensures Escaped(s) == EscapedUnit(s[0]) + Escaped(s[1..])
  {
    hide EscapedUnit;
  }

  lemma EscapedNone()
    ensures Escaped([]) == []
  {
  }

  lemma {:induction false} StringComesBack(s: Text, rest: Text)
    ensures ParseString(Escaped(s) + ([QUOTE] + rest)) == Got(s, rest)
  {
    hide ParseString, EscapedUnit, Escaped;
    var end := [QUOTE] + rest;
    if s == [] {
      EscapedNone();
      NothingAdded(end);
      QuoteEnds(rest);
    } else if |s| >= 2 && High(s[0]) && Low(s[1]) {
      var more := Escaped(s[2..]);
      StringComesBack(s[2..], rest);
      EscapedPair(s);
      PlainComesBack(s[1], more + end);
      PlainComesBack(s[0], [s[1]] + (more + end));
      Associates([s[0]], [s[1]] + more, end);
      Associates([s[1]], more, end);
    } else {
      var more := Escaped(s[1..]);
      StringComesBack(s[1..], rest);
      EscapedOne(s);
      UnitComesBack(s[0], more + end);
      Associates(EscapedUnit(s[0]), more, end);
      HeadOf(s, []);
    }
  }

  // ----- no shorter text would do -----

  /** The units that have a short escape, and its letter: section 7 of RFC 8259. */
  lemma ShortEscapes()
    ensures EscapedUnit('"' as int) == ['\\' as int, '"' as int]
    ensures EscapedUnit('\\' as int) == ['\\' as int, '\\' as int]
    ensures EscapedUnit(0x08) == ['\\' as int, 'b' as int] && EscapedUnit(0x0c) == ['\\' as int, 'f' as int]
    ensures EscapedUnit(0x0a) == ['\\' as int, 'n' as int] && EscapedUnit(0x0d) == ['\\' as int, 'r' as int]
    ensures EscapedUnit(0x09) == ['\\' as int, 't' as int]
  {
  }

  /** The literals of section 3 of RFC 8259. */
  lemma LiteralForms()
    ensures Stringify(Bool(true)) == ['t' as int, 'r' as int, 'u' as int, 'e' as int]
    ensures Stringify(Bool(false)) == ['f' as int, 'a' as int, 'l' as int, 's' as int, 'e' as int]
    ensures Stringify(Null) == Stringify(Undefined) == Stringify(NonFinite)
            == ['n' as int, 'u' as int, 'l' as int, 'l' as int]
  {
  }

  /** The brackets and separators of sections 4 and 5 of RFC 8259, and no white space. */
  lemma ArrayForms(a: Json, b: Json)
    ensures Stringify(Arr([a, b])) == ['[' as int] + (Stringify(a) + [',' as int] + Stringify(b)) + [']' as int]
  {
    hide Stringify, Printed, Join;
    TwoPrinted(a, b);
    ArrayText([a, b]);
  }

  lemma ArrayText(items: seq<Json>)
    ensures Stringify(Arr(items)) == [OPEN] + Join(Printed(items)) + [CLOSE]
  {
    hide Join, Printed;
  }

  lemma ObjectForm(key: Text, a: Json)
    requires !a.Undefined?
    ensures Stringify(Obj([Pair(key, a)])) ==
            ['{' as int] + (['"' as int] + Escaped(key) + ['"' as int] + [':' as int] + Stringify(a)) + ['}' as int]
  {
    hide Escaped, Stringify;
    var p := Pair(key, Stringify(a));
    OnePrinted(key, a);
    OneField(p);
    ObjectText([Pair(key, a)]);
  }

  lemma ObjectText(fields: seq<Pair<Json>>)
    ensures Stringify(Obj(fields)) == [OPEN_BRACE] + Join(FieldTexts(Sort(PrintedFields(fields)))) + [CLOSE_BRACE]
  {
    hide Join, FieldTexts, Sort, PrintedFields;
  }

  lemma OnePrinted(key: Text, a: Json)
    requires !a.Undefined?
    ensures PrintedFields([Pair(key, a)]) == [Pair(key, Stringify(a))]
  {
    hide Stringify;
    assert [Pair(key, a)][1..] == [];
    assert PrintedFields([]) == [];
  }

  lemma OneField(p: Pair<Text>)
    ensures Join(FieldTexts(Sort([p]))) == Quoted(p.key) + [COLON] + p.value
  {
    hide Quoted;
    assert [p][1..] == [];
    assert Sort([p]) == [p];
    assert FieldTexts([p]) == [FieldText(p)];
  }

  lemma TwoPrinted(a: Json, b: Json)
    ensures Join(Printed([a, b])) == Stringify(a) + [COMMA] + Stringify(b)
  {
    assert [a, b][1..] == [b] && [b][1..] == [];
    assert Printed([b]) == [Stringify(b)];
    assert Printed([a, b]) == [Stringify(a), Stringify(b)];
    assert [Stringify(a), Stringify(b)][1..] == [Stringify(b)];
  }

  /** A numbered escape is a backslash, the letter u and four digits, the letters among them small. */
  lemma NumberedEscape(u: Unit)
    ensures var t := UnicodeEscape(u);
            && |t| == 6 && t[0] == '\\' as int && t[1] == 'u' as int
            && forall i :: 2 <= i < 6 ==> '0' as int <= t[i] <= '9' as int || 'a' as int <= t[i] <= 'f' as int
  {
  }

  /** A text without a surrogate that stands alone. */
  predicate WellFormed(t: Text) {
    if t == [] then true
    else if High(t[0]) then |t| >= 2 && Low(t[1]) && WellFormed(t[2..])
    else !Low(t[0]) && WellFormed(t[1..])
  }

  /** What a unit needs at least: itself, an escape of two, or its number in an escape of six. */
  lemma UnitNeeds(u: Unit)
    ensures |EscapedUnit(u)| == 1 <==> u >= 0x20 && u != QUOTE && u != ESCAPE && !High(u) && !Low(u)
    ensures |EscapedUnit(u)| == 2 <==> u in {QUOTE, ESCAPE, 8, 9, 10, 12, 13}
    ensures |EscapedUnit(u)| in {1, 2, 6}
  {
  }

  lemma EscapedNeeds(s: Text)
    requires s != []
    ensures |Escaped(s)| <= |EscapedUnit(s[0])| + |Escaped(s[1..])|
  {
    UnitNeeds(s[0]);
    if |s| >= 2 && High(s[0]) && Low(s[1]) {
      assert s[1..][1..] == s[2..];
      EscapedOne(s[1..]);
      UnitNeeds(s[1]);
    }
  }

  /** How many units of a text its first unit is read from. */
  function ReadLength(t: Text): nat
    requires t != []
  {
    if t[0] != ESCAPE then 1 else if |t| >= 2 && t[1] == LETTER_U then 6 else 2
  }

  /** One unit is read, from no more than there is, and the rest is read as the rest. */
  lemma FirstRead(s: Text, t: Text, end: Text)
    requires t != [] && ParseString(t + ([QUOTE] + end)) == Got(s, end)
    ensures s != [] && ReadLength(t) <= |t|
    ensures ParseString(t[ReadLength(t)..] + ([QUOTE] + end)) == Got(s[1..], end)
    ensures ReadLength(t) == 1 ==> s[0] == t[0] && t[0] >= 0x20 && t[0] != QUOTE && t[0] != ESCAPE
    ensures ReadLength(t) == 2 ==> t[0] == ESCAPE && t[1] < 0x80 && s[0] in {QUOTE, ESCAPE, 0x2f, 8, 9, 10, 12, 13}
    ensures ReadLength(t) == 6 ==> t[0] == ESCAPE && t[1] == LETTER_U && IsHex(t[2..6])
  {
    var more := [QUOTE] + end;
    var all, n := t + more, ReadLength(t);
    InFront(t, more);
    SameReadLength(t, more);
    hide ParseString, IsHex;
    QuoteFirst(all);
    OneStep(all);
    Shorter(all[n..]);
    CutFront(t, more, n);
    if n == 6 { SameMiddle(t, more); }
  }

  lemma QuoteFirst(all: Text)
    requires all != []
    ensures all[0] == QUOTE ==> ParseString(all) == Got([], all[1..])
  {
  }

  lemma Shorter(t: Text)
    ensures ParseString(t).Got? ==> |ParseString(t).rest| < |t|
  {
  }

  lemma InFront(t: Text, more: Text)
    ensures forall i :: 0 <= i < |t| ==> (t + more)[i] == t[i]
  {
  }

  lemma CutFront(t: Text, more: Text, n: nat)
    ensures n <= |t| ==> (t + more)[n..] == t[n..] + more
  {
  }

  lemma SameMiddle(t: Text, more: Text)
    ensures |t| >= 6 ==> (t + more)[2..6] == t[2..6]
  {
  }

  lemma SameReadLength(t: Text, more: Text)
    requires t != [] && (more != [] ==> more[0] == QUOTE)
    ensures ReadLength(t + more) == ReadLength(t)
  {
  }

  lemma PlainStep(all: Text)
    requires all != [] && ParseString(all).Got? && all[0] != QUOTE && all[0] != ESCAPE
    ensures var r := ParseString(all);
            && all[0] >= 0x20 && r.value != [] && r.value[0] == all[0]
            && ParseString(all[1..]) == Got(r.value[1..], r.rest)
  {
  }

  lemma ShortStep(all: Text)
    requires all != [] && ParseString(all).Got? && all[0] == ESCAPE && (|all| >= 2 ==> all[1] != LETTER_U)
    ensures var r := ParseString(all);
            && |all| >= 2 && all[1] < 0x80 && r.value != [] && r.value[0] in {QUOTE, ESCAPE, 0x2f, 8, 9, 10, 12, 13}
            && ParseString(all[2..]) == Got(r.value[1..], r.rest)
  {
    hide HexValue, IsHex;
  }

  lemma NumberNeedsSix(all: Text)
    requires |all| >= 2 && ParseString(all).Got? && all[0] == ESCAPE && all[1] == LETTER_U
    ensures |all| >= 6 && IsHex(all[2..6])
  {
    assert Unshort(LETTER_U) < 0;
    hide HexValue, IsHex, HexUnit, Unshort, Prefixed;
  }

  lemma NumberIsRead(all: Text)
    requires |all| >= 6 && all[0] == ESCAPE && all[1] == LETTER_U && IsHex(all[2..6])
    ensures ParseString(all) == Prefixed(HexUnit(all[2..6]), ParseString(all[6..]))
  {
    assert Unshort(LETTER_U) < 0;
    hide HexValue, IsHex, HexUnit, Unshort, Prefixed;
  }

  lemma NumberStep(all: Text)
    requires |all| >= 2 && ParseString(all).Got? && all[0] == ESCAPE && all[1] == LETTER_U
    ensures var r := ParseString(all);
            && |all| >= 6 && IsHex(all[2..6]) && r.value != []
            && ParseString(all[6..]) == Got(r.value[1..], r.rest)
  {
    hide ParseString, IsHex, HexUnit;
    NumberNeedsSix(all);
    NumberIsRead(all);
  }

  /** What reading a string does with its first unit. */
  lemma OneStep(all: Text)
    requires all != [] && ParseString(all).Got? && all[0] != QUOTE
    ensures var n := ReadLength(all);
            var r := ParseString(all);
            && n <= |all| && r.value != [] && ParseString(all[n..]) == Got(r.value[1..], r.rest)
            && (n == 1 ==> r.value[0] == all[0] && all[0] >= 0x20 && all[0] != ESCAPE)
            && (n == 2 ==> all[0] == ESCAPE && all[1] < 0x80 && r.value[0] in {QUOTE, ESCAPE, 0x2f, 8, 9, 10, 12, 13})
            && (n == 6 ==> all[0] == ESCAPE && all[1] == LETTER_U && IsHex(all[2..6]))
  {
    hide ParseString, IsHex;
    if all[0] != ESCAPE {
      PlainStep(all);
    } else if |all| >= 2 && all[1] == LETTER_U {
      NumberStep(all);
    } else {
      ShortStep(all);
    }
  }

  /** What is left of a well-formed text after its first unit is well-formed. */
  lemma AfterRead(t: Text)
    requires t != [] && WellFormed(t) && !High(t[0]) && ReadLength(t) <= |t|
    requires ReadLength(t) == 2 ==> t[1] < 0x80
    requires ReadLength(t) == 6 ==> IsHex(t[2..6])
    ensures WellFormed(t[ReadLength(t)..])
  {
    if ReadLength(t) == 6 { HexIsPlain(t); }
    hide WellFormed, IsHex;
    if ReadLength(t) == 1 { OneDropped(t); } else { PlainDropped(t, ReadLength(t)); }
  }

  lemma HexIsPlain(t: Text)
    requires |t| >= 6 && IsHex(t[2..6])
    ensures forall i :: 2 <= i < 6 ==> t[i] < 0x80
  {
    forall i | 2 <= i < 6 ensures t[i] < 0x80 { assert HexValue(t[2..6][i - 2]) >= 0; }
  }

  lemma OneDropped(t: Text)
    requires t != [] && WellFormed(t) && !High(t[0])
    ensures WellFormed(t[1..])
  {
  }

  lemma {:induction false} PlainDropped(t: Text, n: nat)
    requires n <= |t| && WellFormed(t) && forall i :: 0 <= i < n ==> t[i] < 0x80
    ensures WellFormed(t[n..])
  {
    if n == 0 {
      assert t[0..] == t;
    } else {
      PlainDropped(t[1..], n - 1);
      assert t[1..][n - 1..] == t[n..];
    }
  }

  /**
   * The printed string is the shortest there is: of the well-formed texts that are read as it, none is shorter. So
   * what needs no escape has none, and the short escapes are used where there are any.
   */
  lemma {:induction false} EscapedIsShortest(s: Text, t: Text, end: Text)
    requires WellFormed(t) && ParseString(t + ([QUOTE] + end)) == Got(s, end)
    ensures |Escaped(s)| <= |t|
    decreases |t|
  {
    hide Escaped, EscapedUnit;
    var all := t + ([QUOTE] + end);
    if t == [] {
      QuoteEnds(end);
      NothingAdded([QUOTE] + end);
      EscapedNone();
    } else {
      hide ParseString;
      FirstRead(s, t, end);
      var n := ReadLength(t);
      EscapedNeeds(s);
      if High(t[0]) {
        FirstRead(s[1..], t[1..], end);
        EscapedPair(s);
        assert s[1..][1..] == s[2..] && t[1..][1..] == t[2..];
        EscapedIsShortest(s[2..], t[2..], end);
      } else {
        UnitNeeds(s[0]);
        AfterRead(t);
        EscapedIsShortest(s[1..], t[n..], end);
      }
    }
  }

  // ----- values come back -----

  /** What may follow a printed value: nothing, or the end or the continuation of what holds it. */
  predicate Delimits(rest: Text) { rest == [] || rest[0] == COMMA || rest[0] == CLOSE || rest[0] == CLOSE_BRACE }

  predicate NumberText(t: Text) { t != [] && forall i :: 0 <= i < |t| ==> NumberUnit(t[i]) }

  /** A value JavaScript can hold: number texts are number texts, and an object's keys are distinct. */
  predicate Holdable(v: Json)
    decreases v
  {
    match v
    case Num(text) => NumberText(text)
    case Arr(items) => forall i :: 0 <= i < |items| ==> Holdable(items[i])
    case Obj(fields) => DistinctKeys(fields) && forall i :: 0 <= i < |fields| ==> Holdable(fields[i].value)
    case _ => true
  }

  predicate DistinctKeys<T>(ps: seq<Pair<T>>) { forall i, j :: 0 <= i < j < |ps| ==> ps[i].key != ps[j].key }

  /** This text is read as this value, whatever delimiter follows. */
  ghost predicate ReadsAs(text: Text, v: Json) {
    forall rest :: Delimits(rest) ==> ParseValue(text + rest) == Got(v, rest)
  }

  lemma {:induction false} NumberComesBack(text: Text, rest: Text)
    requires (forall i :: 0 <= i < |text| ==> NumberUnit(text[i])) && Delimits(rest)
    ensures NumberSpan(text + rest) == |text|
  {
    if text == [] {
      assert text + rest == rest;
    } else {
      assert (text + rest)[1..] == text[1..] + rest;
      NumberComesBack(text[1..], rest);
    }
  }

  lemma NumberReads(text: Text)
    requires NumberText(text)
    ensures ReadsAs(text, Num(text))
  {
    forall rest | Delimits(rest) ensures ParseValue(text + rest) == Got(Num(text), rest) {
      NumberComesBack(text, rest);
      assert (text + rest)[0] == text[0];
      assert (text + rest)[..|text|] == text && (text + rest)[|text|..] == rest;
    }
  }

  lemma WordReads(text: Text, v: Json)
    requires (text == NULL && v == Null) || (text == TRUE && v == Bool(true)) || (text == FALSE && v == Bool(false))
    ensures ReadsAs(text, v)
  {
    forall rest ensures ParseValue(text + rest) == Got(v, rest) {
      assert (text + rest)[..|text|] == text && (text + rest)[|text|..] == rest;
      assert (text + rest)[0] == text[0];
    }
  }

  lemma StringReads(s: Text)
    ensures ReadsAs(Quoted(s), Str(s))
  {
    hide Escaped, ParseString;
    forall rest ensures ParseValue(Quoted(s) + rest) == Got(Str(s), rest) {
      StringComesBack(s, rest);
      var body := Escaped(s) + ([QUOTE] + rest);
      QuotedIs(Escaped(s), rest);
      OpenedString(body, s, rest);
    }
  }

  lemma QuotedIs(text: Text, rest: Text)
    ensures [QUOTE] + text + [QUOTE] + rest == [QUOTE] + (text + ([QUOTE] + rest))
  {
  }

  lemma OpenedString(body: Text, s: Text, rest: Text)
    requires ParseString(body) == Got(s, rest)
    ensures ParseValue([QUOTE] + body) == Got(Str(s), rest)
  {
    hide ParseString;
    var t := [QUOTE] + body;
    assert t[0] == QUOTE && t[1..] == body;
  }

  /** A text that is read as a value does not start like the end of what holds it. */
  lemma ReadsStart(text: Text, v: Json)
    requires ReadsAs(text, v)
    ensures text != [] && text[0] != CLOSE && text[0] != CLOSE_BRACE
  {
    assert ParseValue(text + []) == Got(v, []);
    assert text + [] == text;
  }

  ghost predicate ItemsRead(texts: seq<Text>, vs: seq<Json>) {
    |texts| == |vs| && forall i :: 0 <= i < |texts| ==> ReadsAs(texts[i], vs[i])
  }

  lemma LastItem(text: Text, v: Json, rest: Text)
    requires ReadsAs(text, v)
    ensures ParseItems(text + ([CLOSE] + rest)) == Got([v], rest)
  {
    hide ParseValue;
    var end := [CLOSE] + rest;
    assert ParseValue(text + end) == Got(v, end);
    assert end[0] == CLOSE && end[1..] == rest;
  }

  lemma NextItem(text: Text, v: Json, tail: Text, vs: seq<Json>, rest: Text)
    requires ReadsAs(text, v) && ParseItems(tail) == Got(vs, rest)
    ensures ParseItems(text + ([COMMA] + tail)) == Got([v] + vs, rest)
  {
    hide ParseValue;
    var end := [COMMA] + tail;
    assert ParseValue(text + end) == Got(v, end);
    assert end[0] == COMMA && end[1..] == tail;
  }

  lemma JoinNext(texts: seq<Text>)
    requires |texts| > 1
    ensures Join(texts) == texts[0] + [COMMA] + Join(texts[1..])
  {
  }

  lemma JoinedIs(text: Text, more: Text, end: Text)
    ensures text + [COMMA] + more + end == text + ([COMMA] + (more + end))
  {
  }

  lemma {:induction false} ItemsComeBack(texts: seq<Text>, vs: seq<Json>, rest: Text)
    requires ItemsRead(texts, vs) && texts != []
    ensures ParseItems(Join(texts) + ([CLOSE] + rest)) == Got(vs, rest)
    decreases |texts|
  {
    hide ParseItems, ReadsAs, Join;
    HeadOf(vs, []);
    if |texts| == 1 {
      JoinOne(texts);
      LastItem(texts[0], vs[0], rest);
      assert vs == [vs[0]];
    } else {
      var end := [CLOSE] + rest;
      JoinNext(texts);
      JoinedIs(texts[0], Join(texts[1..]), end);
      ItemsComeBack(texts[1..], vs[1..], rest);
      NextItem(texts[0], vs[0], Join(texts[1..]) + end, vs[1..], rest);
    }
  }

  lemma JoinOne(texts: seq<Text>)
    requires |texts| == 1
    ensures Join(texts) == texts[0]
  {
  }

  ghost predicate FieldsRead(ps: seq<Pair<Text>>, ns: seq<Pair<Json>>) {
    |ps| == |ns| && forall i :: 0 <= i < |ps| ==> ps[i].key == ns[i].key && ReadsAs(ps[i].value, ns[i].value)
  }

  lemma KeyComesBack(p: Pair<Text>, tail: Text)
    ensures var t := FieldText(p) + tail;
            t != [] && t[0] == QUOTE && ParseString(t[1..]) == Got(p.key, [COLON] + (p.value + tail))
  {
    hide ParseString, Escaped;
    var text, after := Escaped(p.key), [COLON] + (p.value + tail);
    StringComesBack(p.key, after);
    FieldIs(text, p.value, tail);
    var body := text + ([QUOTE] + after);
    assert ([QUOTE] + body)[0] == QUOTE && ([QUOTE] + body)[1..] == body;
  }

  lemma FieldIs(text: Text, value: Text, tail: Text)
    ensures [QUOTE] + text + [QUOTE] + [COLON] + value + tail ==
            [QUOTE] + (text + ([QUOTE] + ([COLON] + (value + tail))))
  {
  }

  lemma LastField(p: Pair<Text>, n: Pair<Json>, rest: Text)
    requires p.key == n.key && ReadsAs(p.value, n.value)
    ensures ParseFields(FieldText(p) + ([CLOSE_BRACE] + rest)) == Got([n], rest)
  {
    hide ParseValue, ParseString, FieldText;
    var end := [CLOSE_BRACE] + rest;
    KeyComesBack(p, end);
    assert ([COLON] + (p.value + end))[1..] == p.value + end;
    assert ParseValue(p.value + end) == Got(n.value, end);
    assert end[0] == CLOSE_BRACE && end[1..] == rest;
  }

  lemma NextField(p: Pair<Text>, n: Pair<Json>, tail: Text, ns: seq<Pair<Json>>, rest: Text)
    requires p.key == n.key && ReadsAs(p.value, n.value) && ParseFields(tail) == Got(ns, rest)
    ensures ParseFields(FieldText(p) + ([COMMA] + tail)) == Got([n] + ns, rest)
  {
    hide ParseValue, ParseString, FieldText;
    var end := [COMMA] + tail;
    KeyComesBack(p, end);
    assert ([COLON] + (p.value + end))[1..] == p.value + end;
    assert ParseValue(p.value + end) == Got(n.value, end);
    assert end[0] == COMMA && end[1..] == tail;
  }

  lemma FieldTextsNext(ps: seq<Pair<Text>>)
    requires ps != []
    ensures FieldTexts(ps)[0] == FieldText(ps[0]) && FieldTexts(ps)[1..] == FieldTexts(ps[1..])
  {
  }

  lemma {:induction false} FieldsComeBack(ps: seq<Pair<Text>>, ns: seq<Pair<Json>>, rest: Text)
    requires FieldsRead(ps, ns) && ps != []
    ensures ParseFields(Join(FieldTexts(ps)) + ([CLOSE_BRACE] + rest)) == Got(ns, rest)
    decreases |ps|
  {
    hide ParseFields, ReadsAs, FieldText, FieldTexts, Join;
    HeadOf(ns, []);
    FieldTextsNext(ps);
    if |ps| == 1 {
      JoinOne(FieldTexts(ps));
      LastField(ps[0], ns[0], rest);
      assert ns == [ns[0]];
    } else {
      var end := [CLOSE_BRACE] + rest;
      JoinNext(FieldTexts(ps));
      JoinedIs(FieldText(ps[0]), Join(FieldTexts(ps[1..])), end);
      FieldsComeBack(ps[1..], ns[1..], rest);
      NextField(ps[0], ns[0], Join(FieldTexts(ps[1..])) + end, ns[1..], rest);
    }
  }

  /** Sorting looks at keys only, so it keeps texts and values side by side. */
  lemma {:induction false} InsertKeepsFieldsRead(p: Pair<Text>, n: Pair<Json>, ps: seq<Pair<Text>>, ns: seq<Pair<Json>>)
    requires p.key == n.key && ReadsAs(p.value, n.value) && FieldsRead(ps, ns)
    ensures FieldsRead(Insert(p, ps), Insert(n, ns))
  {
    if ps != [] && !Less(p.key, ps[0].key) { InsertKeepsFieldsRead(p, n, ps[1..], ns[1..]); }
  }

  lemma {:induction false} SortKeepsFieldsRead(ps: seq<Pair<Text>>, ns: seq<Pair<Json>>)
    requires FieldsRead(ps, ns)
    ensures FieldsRead(Sort(ps), Sort(ns))
  {
    if ps != [] {
      SortKeepsFieldsRead(ps[1..], ns[1..]);
      InsertKeepsFieldsRead(ps[0], ns[0], Sort(ps[1..]), Sort(ns[1..]));
    }
  }

  lemma {:induction false} ValueReads(v: Json)
    requires Holdable(v)
    ensures ReadsAs(Stringify(v), Normal(v))
    decreases v, 1
  {
    match v
    case Undefined => WordReads(NULL, Null);
    case Null => WordReads(NULL, Null);
    case NonFinite => WordReads(NULL, Null);
    case Bool(b) => WordReads(if b then TRUE else FALSE, Bool(b));
    case Num(text) => NumberReads(text);
    case Str(s) => StringReads(s);
    case Arr(items) =>
      AllItemsRead(items);
      ArrayReads(Printed(items), NormalItems(items));
    case Obj(fields) =>
      AllFieldsRead(fields);
      SortKeepsFieldsRead(PrintedFields(fields), NormalFields(fields));
      ObjectReads(Sort(PrintedFields(fields)), Sort(NormalFields(fields)));
  }

  lemma {:induction false} AllItemsRead(items: seq<Json>)
    requires forall i :: 0 <= i < |items| ==> Holdable(items[i])
    ensures ItemsRead(Printed(items), NormalItems(items))
    decreases items, 0
  {
    if items != [] {
      ValueReads(items[0]);
      AllItemsRead(items[1..]);
    }
  }

  lemma {:induction false} AllFieldsRead(fields: seq<Pair<Json>>)
    requires forall i :: 0 <= i < |fields| ==> Holdable(fields[i].value)
    ensures FieldsRead(PrintedFields(fields), NormalFields(fields))
    decreases fields, 0
  {
    if fields != [] {
      ValueReads(fields[0].value);
      AllFieldsRead(fields[1..]);
    }
  }

  lemma OpenedArray(body: Text, vs: seq<Json>, rest: Text)
    requires ParseItems(body) == Got(vs, rest) && body != [] && body[0] != CLOSE
    ensures ParseValue([OPEN] + body) == Got(Arr(vs), rest)
  {
    hide ParseItems;
    var t := [OPEN] + body;
    assert t[0] == OPEN && t[1] == body[0] && t[1..] == body;
  }

  lemma EmptyReads(rest: Text)
    ensures ParseValue([OPEN, CLOSE] + rest) == Got(Arr([]), rest)
    ensures ParseValue([OPEN_BRACE, CLOSE_BRACE] + rest) == Got(Obj([]), rest)
  {
    var t, u := [OPEN, CLOSE] + rest, [OPEN_BRACE, CLOSE_BRACE] + rest;
    assert t[0] == OPEN && t[1] == CLOSE && t[2..] == rest;
    assert u[0] == OPEN_BRACE && u[1] == CLOSE_BRACE && u[2..] == rest;
  }

  lemma OpenedObject(body: Text, ns: seq<Pair<Json>>, rest: Text)
    requires ParseFields(body) == Got(ns, rest) && body != [] && body[0] != CLOSE_BRACE
    ensures ParseValue([OPEN_BRACE] + body) == Got(Obj(ns), rest)
  {
    hide ParseFields;
    var t := [OPEN_BRACE] + body;
    assert t[0] == OPEN_BRACE && t[1] == body[0] && t[1..] == body;
  }

  lemma ArrayReads(texts: seq<Text>, vs: seq<Json>)
    requires ItemsRead(texts, vs)
    ensures ReadsAs([OPEN] + Join(texts) + [CLOSE], Arr(vs))
  {
    hide ParseValue, ParseItems;
    forall rest ensures ParseValue([OPEN] + Join(texts) + [CLOSE] + rest) == Got(Arr(vs), rest) {
      var t := [OPEN] + Join(texts) + [CLOSE] + rest;
      if texts == [] {
        assert t == [OPEN, CLOSE] + rest;
        EmptyReads(rest);
      } else {
        var body := Join(texts) + ([CLOSE] + rest);
        ReadsStart(texts[0], vs[0]);
        ItemsComeBack(texts, vs, rest);
        assert t == [OPEN] + body && body[0] == texts[0][0];
        OpenedArray(body, vs, rest);
      }
    }
  }

  lemma FieldsStart(ps: seq<Pair<Text>>, rest: Text)
    requires ps != []
    ensures Join(FieldTexts(ps)) != [] && Join(FieldTexts(ps))[0] == QUOTE
  {
    assert FieldText(ps[0])[0] == QUOTE;
  }

  lemma ObjectReads(ps: seq<Pair<Text>>, ns: seq<Pair<Json>>)
    requires FieldsRead(ps, ns)
    ensures ReadsAs([OPEN_BRACE] + Join(FieldTexts(ps)) + [CLOSE_BRACE], Obj(ns))
  {
    hide ParseValue, ParseFields;
    forall rest ensures ParseValue([OPEN_BRACE] + Join(FieldTexts(ps)) + [CLOSE_BRACE] + rest) == Got(Obj(ns), rest) {
      var t := [OPEN_BRACE] + Join(FieldTexts(ps)) + [CLOSE_BRACE] + rest;
      if ps == [] {
        assert t == [OPEN_BRACE, CLOSE_BRACE] + rest;
        EmptyReads(rest);
      } else {
        var body := Join(FieldTexts(ps)) + ([CLOSE_BRACE] + rest);
        FieldsStart(ps, rest);
        FieldsComeBack(ps, ns, rest);
        assert t == [OPEN_BRACE] + body;
        OpenedObject(body, ns, rest);
      }
    }
  }

  /** Reading the printed text gives back the value with its keys sorted and what is undefined dropped. */
  lemma ParseUndoesStringify(v: Json)
    requires Holdable(v)
    ensures ParseValue(Stringify(v)) == Got(Normal(v), [])
  {
    ValueReads(v);
    assert Stringify(v) + [] == Stringify(v);
  }

  // ----- sorting by distinct keys -----

  predicate Increasing<T>(ps: seq<Pair<T>>) { forall i, j :: 0 <= i < j < |ps| ==> Less(ps[i].key, ps[j].key) }

  /** The key order is a strict total order. */
  lemma {:induction false} LessIsTotal(a: Text, b: Text)
    ensures a == b ==> !Less(a, b)
    ensures a != b ==> (Less(a, b) <==> !Less(b, a))
  {
    if a != [] && b != [] && a[0] == b[0] {
      LessIsTotal(a[1..], b[1..]);
      assert a == [a[0]] + a[1..] && b == [b[0]] + b[1..];
    }
  }

  /** A text before another by the first unit in which they differ, or by being a proper beginning of it. */
  ghost predicate Before(a: Text, b: Text) { (a <= b && a != b) || exists i: nat :: DiffersFirst(a, b, i) }

  /** The texts agree up to this unit, and here the first is lower. */
  predicate DiffersFirst(a: Text, b: Text, i: nat) {
    i < |a| && i < |b| && a[..i] == b[..i] && a[i] < b[i]
  }

  /** The order that sorts the keys is that order of the units. */
  lemma {:induction false} LessIsBefore(a: Text, b: Text)
    ensures Less(a, b) <==> Before(a, b)
  {
    if a == [] || b == [] {
    } else if a[0] != b[0] {
      if a[0] < b[0] { assert DiffersFirst(a, b, 0); }
      forall i: nat | DiffersFirst(a, b, i) ensures i == 0 { AgreeBefore(a, b, i); }
    } else {
      LessIsBefore(a[1..], b[1..]);
      SameHead(a, b);
    }
  }

  lemma AgreeBefore(a: Text, b: Text, i: nat)
    requires DiffersFirst(a, b, i)
    ensures i > 0 ==> a[0] == b[0]
  {
    assert i > 0 ==> a[..i][0] == a[0] && b[..i][0] == b[0];
  }

  lemma SameHead(a: Text, b: Text)
    requires a != [] && b != [] && a[0] == b[0]
    ensures Before(a[1..], b[1..]) <==> Before(a, b)
  {
    var x, y := a[1..], b[1..];
    assert a == [a[0]] + x && b == [a[0]] + y;
    forall i: nat ensures DiffersFirst(x, y, i) <==> DiffersFirst(a, b, i + 1) {
      if i < |x| && i < |y| {
        assert a[..i + 1] == [a[0]] + x[..i] && b[..i + 1] == [a[0]] + y[..i];
        assert a[..i + 1][1..] == x[..i] && b[..i + 1][1..] == y[..i];
      }
    }
    if exists i: nat :: DiffersFirst(x, y, i) {
      var i: nat :| DiffersFirst(x, y, i);
      assert DiffersFirst(a, b, i + 1);
    }
    if exists i: nat :: DiffersFirst(a, b, i) {
      var i: nat :| DiffersFirst(a, b, i);
      assert DiffersFirst(x, y, i - 1);
    }
    if a <= b { assert x == b[1..|a|]; }
    if x <= y { assert y[..|x|] == x && b[..|a|] == [a[0]] + y[..|x|]; }
  }

  lemma {:induction false} LessTransitive(a: Text, b: Text, c: Text)
    requires Less(a, b) && Less(b, c)
    ensures Less(a, c)
  {
    if a != [] && a[0] == b[0] && b[0] == c[0] { LessTransitive(a[1..], b[1..], c[1..]); }
  }

  lemma {:induction false} InsertMembers<T>(p: Pair<T>, ps: seq<Pair<T>>, q: Pair<T>)
    ensures q in Insert(p, ps) <==> q == p || q in ps
  {
    if ps != [] && !Less(p.key, ps[0].key) {
      InsertMembers(p, ps[1..], q);
      assert ps == [ps[0]] + ps[1..];
    }
  }

  lemma {:induction false} SortMembers<T>(ps: seq<Pair<T>>, q: Pair<T>)
    ensures q in Sort(ps) <==> q in ps
  {
    if ps != [] {
      SortMembers(ps[1..], q);
      InsertMembers(ps[0], Sort(ps[1..]), q);
      assert ps == [ps[0]] + ps[1..];
    }
  }

  /** A key below every other may be put in front. */
  lemma ConsIncreasing<T>(p: Pair<T>, ps: seq<Pair<T>>)
    requires Increasing(ps) && forall q :: q in ps ==> Less(p.key, q.key)
    ensures Increasing([p] + ps)
  {
  }

  lemma {:induction false} InsertIncreasing<T>(p: Pair<T>, ps: seq<Pair<T>>)
    requires Increasing(ps) && forall q :: q in ps ==> q.key != p.key
    ensures Increasing(Insert(p, ps))
  {
    hide Less;
    if ps == [] {
    } else if Less(p.key, ps[0].key) {
      forall q | q in ps ensures Less(p.key, q.key) {
        if q != ps[0] { LessTransitive(p.key, ps[0].key, q.key); }
      }
      ConsIncreasing(p, ps);
    } else {
      LessIsTotal(p.key, ps[0].key);
      InsertIncreasing(p, ps[1..]);
      forall q | q in Insert(p, ps[1..]) ensures Less(ps[0].key, q.key) { InsertMembers(p, ps[1..], q); }
      ConsIncreasing(ps[0], Insert(p, ps[1..]));
    }
  }

  lemma {:induction false} SortIncreasing<T>(ps: seq<Pair<T>>)
    requires DistinctKeys(ps)
    ensures Increasing(Sort(ps))
  {
    hide Less, Insert;
    if ps != [] {
      SortIncreasing(ps[1..]);
      forall q | q in Sort(ps[1..]) ensures q.key != ps[0].key { SortMembers(ps[1..], q); }
      InsertIncreasing(ps[0], Sort(ps[1..]));
    }
  }

  /** There is one way to list given fields in increasing key order. */
  lemma {:induction false} IncreasingUnique<T>(a: seq<Pair<T>>, b: seq<Pair<T>>)
    requires Increasing(a) && Increasing(b)
    requires forall q :: q in a <==> q in b
    ensures a == b
  {
    hide Less;
    if a == [] {
      FirstIsIn(b);
    } else {
      assert a[0] in b;
      SameFirst(a, b);
      forall q ensures q in a[1..] <==> q in b[1..] {
        TailMembers(a, q);
        TailMembers(b, q);
      }
      IncreasingUnique(a[1..], b[1..]);
      assert a == [a[0]] + a[1..] && b == [b[0]] + b[1..];
    }
  }

  lemma FirstIsIn<T>(ps: seq<Pair<T>>)
    ensures ps == [] || ps[0] in ps
  {
  }

  lemma SameFirst<T>(a: seq<Pair<T>>, b: seq<Pair<T>>)
    requires Increasing(a) && Increasing(b) && a != [] && b != [] && a[0] in b && b[0] in a
    ensures a[0] == b[0]
  {
    hide Less;
    LessIsTotal(a[0].key, b[0].key);
  }

  lemma TailMembers<T>(a: seq<Pair<T>>, q: Pair<T>)
    requires Increasing(a) && a != []
    ensures q in a[1..] <==> q in a && q != a[0]
  {
    hide Less;
    LessIsTotal(a[0].key, a[0].key);
    assert a == [a[0]] + a[1..];
  }

  /** Sorting again changes nothing. */
  lemma SortTwice<T>(ps: seq<Pair<T>>)
    requires DistinctKeys(ps)
    ensures Sort(Sort(ps)) == Sort(ps)
  {
    hide Less;
    SortIncreasing(ps);
    var s := Sort(ps);
    LessNeverSame(s);
    SortIncreasing(s);
    forall q ensures q in Sort(s) <==> q in s { SortMembers(s, q); }
    IncreasingUnique(Sort(s), s);
  }

  lemma LessNeverSame<T>(ps: seq<Pair<T>>)
    requires Increasing(ps)
    ensures DistinctKeys(ps)
  {
    hide Less;
    forall i, j | 0 <= i < j < |ps| ensures ps[i].key != ps[j].key { LessIsTotal(ps[i].key, ps[j].key); }
  }

  // ----- canonical and injective -----

  lemma {:induction false} AbsentKey(fields: seq<Pair<Json>>, key: Text)
    requires forall f :: f in fields ==> f.key != key
    ensures forall p :: p in PrintedFields(fields) ==> p.key != key
    ensures forall p :: p in NormalFields(fields) ==> p.key != key
  {
    hide Stringify, Normal;
    if fields != [] {
      assert fields == [fields[0]] + fields[1..];
      AbsentKey(fields[1..], key);
    }
  }

  /** The defined fields, whether printed or normalised, still have distinct keys. */
  lemma {:induction false} DefinedKeys(fields: seq<Pair<Json>>)
    requires DistinctKeys(fields)
    ensures DistinctKeys(PrintedFields(fields)) && DistinctKeys(NormalFields(fields))
  {
    hide Stringify, Normal;
    if fields != [] {
      DefinedKeys(fields[1..]);
      AbsentKey(fields[1..], fields[0].key);
    }
  }

  /** A value and its normal form print as one text. */
  lemma {:induction false} NormalPrintsTheSame(v: Json)
    requires Holdable(v)
    ensures Stringify(v) == Stringify(Normal(v))
    decreases v, 1
  {
    hide Sort, PrintedFields, NormalFields, Printed, NormalItems, FieldTexts, Join;
    match v
    case Arr(items) => NormalItemsPrintTheSame(items);
    case Obj(fields) =>
      DefinedKeys(fields);
      NormalFieldsPrintTheSame(fields);
      SortedPrints(NormalFields(fields));
      SortTwice(PrintedFields(fields));
    case _ =>
  }

  lemma {:induction false} NormalItemsPrintTheSame(items: seq<Json>)
    requires forall i :: 0 <= i < |items| ==> Holdable(items[i])
    ensures Printed(items) == Printed(NormalItems(items))
    decreases items, 0
  {
    if items != [] {
      NormalPrintsTheSame(items[0]);
      NormalItemsPrintTheSame(items[1..]);
      assert NormalItems(items)[1..] == NormalItems(items[1..]);
    }
  }

  lemma {:induction false} NormalFieldsPrintTheSame(fields: seq<Pair<Json>>)
    requires forall i :: 0 <= i < |fields| ==> Holdable(fields[i].value)
    ensures PrintedFields(fields) == PrintedFields(NormalFields(fields))
    ensures forall i :: 0 <= i < |NormalFields(fields)| ==> !NormalFields(fields)[i].value.Undefined?
    decreases fields, 0
  {
    hide Stringify;
    if fields != [] {
      NormalPrintsTheSame(fields[0].value);
      NormalFieldsPrintTheSame(fields[1..]);
      if !fields[0].value.Undefined? {
        var f := Pair(fields[0].key, Normal(fields[0].value));
        assert NormalFields(fields)[0] == f && NormalFields(fields)[1..] == NormalFields(fields[1..]);
      } else {
        assert NormalFields(fields) == NormalFields(fields[1..]);
      }
    }
  }

  /** Printing defined fields and sorting them may be done in either order. */
  lemma {:induction false} SortedPrints(fields: seq<Pair<Json>>)
    requires forall i :: 0 <= i < |fields| ==> !fields[i].value.Undefined?
    ensures PrintedFields(Sort(fields)) == Sort(PrintedFields(fields))
    ensures forall i :: 0 <= i < |Sort(fields)| ==> !Sort(fields)[i].value.Undefined?
  {
    hide Stringify, Less, Insert;
    if fields != [] {
      SortedPrints(fields[1..]);
      InsertPrints(fields[0], Sort(fields[1..]));
      assert PrintedFields(fields)[1..] == PrintedFields(fields[1..]);
    }
  }

  lemma {:induction false} InsertPrints(f: Pair<Json>, fields: seq<Pair<Json>>)
    requires !f.value.Undefined? && forall i :: 0 <= i < |fields| ==> !fields[i].value.Undefined?
    ensures PrintedFields(Insert(f, fields)) == Insert(Pair(f.key, Stringify(f.value)), PrintedFields(fields))
    ensures forall i :: 0 <= i < |Insert(f, fields)| ==> !Insert(f, fields)[i].value.Undefined?
  {
    hide Stringify, Less;
    if fields == [] || Less(f.key, fields[0].key) {
      assert Insert(f, fields)[1..] == fields;
    } else {
      InsertPrints(f, fields[1..]);
      assert Insert(f, fields)[1..] == Insert(f, fields[1..]);
      assert PrintedFields(fields)[1..] == PrintedFields(fields[1..]);
    }
  }

  /** Two values print as one text exactly when their normal forms are equal. */
  lemma SameTextIffSameNormal(a: Json, b: Json)
    requires Holdable(a) && Holdable(b)
    ensures Stringify(a) == Stringify(b) <==> Normal(a) == Normal(b)
  {
    hide *;
    ParseUndoesStringify(a);
    ParseUndoesStringify(b);
    NormalPrintsTheSame(a);
    NormalPrintsTheSame(b);
  }

  /** The order in which an object's fields were written does not matter. */
  lemma FieldOrderDoesNotMatter(fs: seq<Pair<Json>>, gs: seq<Pair<Json>>)
    requires Holdable(Obj(fs)) && Holdable(Obj(gs))
    requires forall f :: f in fs <==> f in gs
    ensures Stringify(Obj(fs)) == Stringify(Obj(gs))
  {
    var a, b := NormalFields(fs), NormalFields(gs);
    DefinedKeys(fs);
    DefinedKeys(gs);
    SortIncreasing(a);
    SortIncreasing(b);
    assert Normal(Obj(fs)) == Obj(Sort(a)) && Normal(Obj(gs)) == Obj(Sort(b));
    SameTextIffSameNormal(Obj(fs), Obj(gs));
    hide *;
    forall q ensures q in Sort(a) <==> q in Sort(b) {
      SortMembers(a, q);
      SortMembers(b, q);
      NormalMembers(fs, q);
      NormalMembers(gs, q);
    }
    IncreasingUnique(Sort(a), Sort(b));
  }

  /** The object read back from a printed object has exactly its defined fields, their keys in ascending order. */
  lemma PrintedObject(fields: seq<Pair<Json>>)
    requires Holdable(Obj(fields))
    ensures var r := ParseValue(Stringify(Obj(fields)));
            && r.Got? && r.rest == [] && r.value.Obj?
            && (forall i, j :: 0 <= i < j < |r.value.fields| ==> Before(r.value.fields[i].key, r.value.fields[j].key))
            && (forall q :: q in r.value.fields <==>
                  exists f :: f in fields && !f.value.Undefined? && q == Pair(f.key, Normal(f.value)))
  {
    ParseUndoesStringify(Obj(fields));
    var ns := NormalFields(fields);
    DefinedKeys(fields);
    SortIncreasing(ns);
    assert Normal(Obj(fields)) == Obj(Sort(ns));
    hide Holdable, NormalFields, Sort, Less, Before, ParseValue, Stringify, Normal, DistinctKeys;
    forall i, j | 0 <= i < j < |Sort(ns)| ensures Before(Sort(ns)[i].key, Sort(ns)[j].key) {
      LessIsBefore(Sort(ns)[i].key, Sort(ns)[j].key);
    }
    forall q ensures q in Sort(ns) <==>
                     exists f :: f in fields && !f.value.Undefined? && q == Pair(f.key, Normal(f.value))
    {
      SortMembers(ns, q);
      NormalMembers(fields, q);
    }
  }

  lemma {:induction false} NormalMembers(fields: seq<Pair<Json>>, q: Pair<Json>)
    ensures q in NormalFields(fields) <==>
            exists f :: f in fields && !f.value.Undefined? && q == Pair(f.key, Normal(f.value))
  {
    hide Normal;
    if fields != [] {
      NormalMembers(fields[1..], q);
      assert fields == [fields[0]] + fields[1..];
      assert fields[0] in fields;
    }
  }
}
