/** JSON values as JSON.stringify prints them, and a parser that reads the text back.
  * Strings are sequences of UTF-16 code units; a number is its shortest decimal form, as
  * Number::toString of ECMAScript writes it. */
module JsonText {
  import opened Prelude

  type Unit = c: int | 0 <= c < 0x1_0000
  type Text = seq<Unit>

  datatype Json =
    | Null | Bool(b: bool) | Num(n: Decimal) | Str(s: Text) | Arr(items: seq<Json>)
    | Obj(entries: seq<Entry>)   // own keys in enumeration order
  datatype Entry = Entry(key: Text, value: Json)

  /** -12.5e-7: its sign, whole part, digits after the point, and exponent. */
  datatype Decimal = Decimal(negative: bool, whole: nat, fraction: DigitText, exponent: Option<int>)

  predicate IsDigit(c: Unit) { 48 <= c <= 57 }

  type DigitText = t: Text | forall i :: 0 <= i < |t| ==> IsDigit(t[i])

  const QUOTE: Unit := 34
  const BACKSLASH: Unit := 92
  const COMMA: Unit := 44
  const COLON: Unit := 58
  const MINUS: Unit := 45
  const PLUS: Unit := 43
  const POINT: Unit := 46
  const EXPONENT: Unit := 101
  const OPEN: Unit := 91
  const CLOSE: Unit := 93
  const OPEN_BRACE: Unit := 123
  const CLOSE_BRACE: Unit := 125
  const NULL: Text := [110, 117, 108, 108]
  const TRUE: Text := [116, 114, 117, 101]
  const FALSE: Text := [102, 97, 108, 115, 101]

  // ---- strings ----

  predicate High(c: Unit) { 0xD800 <= c < 0xDC00 }
  predicate Low(c: Unit) { 0xDC00 <= c < 0xE000 }

  function HexDigit(d: int): Unit
    requires 0 <= d < 16
  {
    if d < 10 then 48 + d else 87 + d
  }

  function HexValue(c: Unit): Option<int> {
    if 48 <= c <= 57 then Some(c - 48) else if 97 <= c <= 102 then Some(c - 87) else None
  }

  /** The four hexadecimal digits of a backslash-u escape. */
  function Hex(c: Unit): Text {
    [HexDigit(c / 4096), HexDigit(c / 256 % 16), HexDigit(c / 16 % 16), HexDigit(c % 16)]
  }

  /** The letter of a two-unit escape. */
  function Short(c: Unit): Option<Unit> {
    if c == QUOTE || c == BACKSLASH then Some(c)
    else if c == 8 then Some(98) else if c == 12 then Some(102) else if c == 10 then Some(110)
    else if c == 13 then Some(114) else if c == 9 then Some(116) else None
  }

  /** One unit, escaped if it is a control, a quote, a backslash or a lone surrogate. */
  function Escape(c: Unit): Text {
    if Short(c).Some? then [BACKSLASH, Short(c).value]
    else if c < 32 || High(c) || Low(c) then [BACKSLASH, 117] + Hex(c)
    else [c]
  }

  function Quoted(s: Text): Text {
    if s == [] then [QUOTE]
    else if Paired(s) then [s[0], s[1]] + Quoted(s[2..])
    else Escape(s[0]) + Quoted(s[1..])
  }

  function Unshort(c: Unit): Option<Unit> {
    if c == QUOTE || c == BACKSLASH then Some(c)
    else if c == 98 then Some(8) else if c == 102 then Some(12) else if c == 110 then Some(10)
    else if c == 114 then Some(13) else if c == 116 then Some(9) else None
  }

  function Unhex(t: Text): Option<Unit>
    requires |t| == 4
  {
    var a, b, c, d := HexValue(t[0]), HexValue(t[1]), HexValue(t[2]), HexValue(t[3]);
    if a.None? || b.None? || c.None? || d.None? then None
    else Some(a.value * 4096 + b.value * 256 + c.value * 16 + d.value)
  }

  /** The string up to its closing quote, and what follows it. */
  function ParseString(t: Text): (r: Option<(Text, Text)>)
    ensures r.Some? ==> |r.value.1| < |t|
  {
    if t == [] then None
    else if t[0] == QUOTE then Some(([], t[1..]))
    else if t[0] != BACKSLASH then Prepend(t[0], ParseString(t[1..]))
    else if |t| >= 6 && t[1] == 117 then
      if Unhex(t[2..6]).None? then None else Prepend(Unhex(t[2..6]).value, ParseString(t[6..]))
    else if |t| >= 2 && Unshort(t[1]).Some? then Prepend(Unshort(t[1]).value, ParseString(t[2..]))
    else None
  }

  function Prepend(c: Unit, r: Option<(Text, Text)>): Option<(Text, Text)> {
    if r.None? then None else Some(([c] + r.value.0, r.value.1))
  }

  lemma {:induction false} HexDigitRoundTrip(d: int)
    requires 0 <= d < 16
    ensures HexValue(HexDigit(d)) == Some(d)
  {}

  lemma {:induction false} FourDigits(c: nat)
    ensures c == c / 4096 * 4096 + c / 256 % 16 * 256 + c / 16 % 16 * 16 + c % 16
  {
    var a := c / 16;
    var b := a / 16;
    assert b == c / 256;
    assert b / 16 == c / 4096;
    assert b == b / 16 * 16 + b % 16;
    assert a == b * 16 + a % 16;
    assert c == a * 16 + c % 16;
  }

  lemma {:induction false} HexRoundTrip(c: Unit)
    ensures Unhex(Hex(c)) == Some(c)
  {
    FourDigits(c);
    HexDigitRoundTrip(c / 4096);
    HexDigitRoundTrip(c / 256 % 16);
    HexDigitRoundTrip(c / 16 % 16);
    HexDigitRoundTrip(c % 16);
    hide HexValue, HexDigit;
  }

  lemma {:induction false} Verbatim(c: Unit, rest: Text)
    requires c != QUOTE && c != BACKSLASH
    ensures ParseString([c] + rest) == Prepend(c, ParseString(rest))
  {
    assert ([c] + rest)[1..] == rest;
  }

  lemma {:induction false} EscapeRoundTrip(c: Unit, rest: Text)
    ensures ParseString(Escape(c) + rest) == Prepend(c, ParseString(rest))
  {
    var t := Escape(c) + rest;
    if Short(c).Some? {
      assert t[2..] == rest;
    } else if c < 32 || High(c) || Low(c) {
      HexRoundTrip(c);
      hide Hex, Unhex, Short;
      assert t[2..6] == Hex(c) && t[6..] == rest;
    } else {
      Verbatim(c, rest);
    }
  }

  lemma {:induction false} VerbatimPair(a: Unit, b: Unit, rest: Text)
    requires a != QUOTE && a != BACKSLASH && b != QUOTE && b != BACKSLASH
    ensures ParseString([a, b] + rest) == Prepend(a, Prepend(b, ParseString(rest)))
  {
    Verbatim(b, rest);
    Verbatim(a, [b] + rest);
    assert [a, b] + rest == [a] + ([b] + rest);
  }

  lemma {:induction false} PrependSome(c: Unit, s: Text, rest: Text)
    requires s != [] && c == s[0]
    ensures Prepend(c, Some((s[1..], rest))) == Some((s, rest))
  {
    assert s == [s[0]] + s[1..];
  }

  predicate Paired(s: Text) { |s| >= 2 && High(s[0]) && Low(s[1]) }

  lemma {:induction false} PairCase(s: Text, rest: Text)
    requires Paired(s) && ParseString(Quoted(s[2..]) + rest) == Some((s[2..], rest))
    ensures ParseString(Quoted(s) + rest) == Some((s, rest))
  {
    var tail := Quoted(s[2..]) + rest;
    VerbatimPair(s[0], s[1], tail);
    assert Quoted(s) + rest == [s[0], s[1]] + tail;
    hide ParseString, Quoted;
    assert s[1..][1..] == s[2..];
    PrependSome(s[1], s[1..], rest);
    PrependSome(s[0], s, rest);
  }

  lemma {:induction false} SingleCase(s: Text, rest: Text)
    requires s != [] && !Paired(s) && ParseString(Quoted(s[1..]) + rest) == Some((s[1..], rest))
    ensures ParseString(Quoted(s) + rest) == Some((s, rest))
  {
    hide ParseString, Escape;
    var tail := Quoted(s[1..]) + rest;
    EscapeRoundTrip(s[0], tail);
    assert Quoted(s) + rest == Escape(s[0]) + tail;
    hide Quoted;
    PrependSome(s[0], s, rest);
  }

  lemma {:induction false} StringRoundTrip(s: Text, rest: Text)
    ensures ParseString(Quoted(s) + rest) == Some((s, rest))
  {
    if s == [] {
      assert (Quoted(s) + rest)[1..] == rest;
    } else if Paired(s) {
      StringRoundTrip(s[2..], rest);
      PairCase(s, rest);
    } else {
      StringRoundTrip(s[1..], rest);
      SingleCase(s, rest);
    }
  }

  // ---- numbers ----

  function Digits(n: nat): (t: Text)
    ensures |t| > 0 && forall i :: 0 <= i < |t| ==> IsDigit(t[i])
  {
    if n < 10 then [48 + n] else Digits(n / 10) + [48 + n % 10]
  }

  /** How many leading digits, and their value on top of what was read before. */
  function Span(t: Text): (n: nat)
    ensures n <= |t|
  {
    if t != [] && IsDigit(t[0]) then 1 + Span(t[1..]) else 0
  }

  function Value(t: Text): nat
    requires forall i :: 0 <= i < |t| ==> IsDigit(t[i])
  {
    if t == [] then 0 else Value(t[..|t| - 1]) * 10 + DigitValue(t[|t| - 1])
  }

  function DigitValue(c: Unit): nat
    requires IsDigit(c)
  {
    var n: int := c;
    n - 48
  }

  lemma {:induction false} SpanDigits(t: Text)
    ensures forall i :: 0 <= i < Span(t) ==> IsDigit(t[i])
  {
    if t != [] && IsDigit(t[0]) { SpanDigits(t[1..]); }
  }

  lemma {:induction false} DigitsRoundTrip(n: nat)
    ensures Value(Digits(n)) == n
  {
    if n >= 10 {
      DigitsRoundTrip(n / 10);
      assert Digits(n)[..|Digits(n)| - 1] == Digits(n / 10);
    }
  }

  predicate NoDigit(rest: Text) { rest == [] || !IsDigit(rest[0]) }

  /** Text that cannot continue a number. */
  predicate Ends(rest: Text) { rest == [] || (!IsDigit(rest[0]) && rest[0] != POINT && rest[0] != EXPONENT) }

  lemma {:induction false} SpanRoundTrip(t: Text, rest: Text)
    requires forall i :: 0 <= i < |t| ==> IsDigit(t[i])
    requires NoDigit(rest)
    ensures Span(t + rest) == |t|
  {
    if t != [] {
      SpanRoundTrip(t[1..], rest);
      assert (t + rest)[1..] == t[1..] + rest;
    } else {
      assert t + rest == rest;
    }
  }

  function FractionText(fraction: DigitText): Text { if fraction == [] then [] else [POINT] + fraction }

  function ExponentText(e: Option<int>): Text {
    if e.None? then []
    else if e.value < 0 then [EXPONENT, MINUS] + Digits(-e.value)
    else [EXPONENT, PLUS] + Digits(e.value)
  }

  function NumText(n: Decimal): Text {
    (if n.negative then [MINUS] else []) + (Digits(n.whole) + (FractionText(n.fraction) + ExponentText(n.exponent)))
  }

  function ParseDigits(t: Text): (r: Option<(nat, Text)>)
    ensures r.Some? ==> |r.value.1| < |t|
  {
    SpanDigits(t);
    if Span(t) == 0 then None else Some((Value(t[..Span(t)]), t[Span(t)..]))
  }

  function ParseFraction(t: Text): (r: Option<(DigitText, Text)>)
    ensures r.Some? ==> |r.value.1| <= |t|
  {
    if t == [] || t[0] != POINT then Some(([], t))
    else
      var n := Span(t[1..]);
      SpanDigits(t[1..]);
      if n == 0 then None else Some((t[1..][..n], t[1..][n..]))
  }

  function Negated(n: nat): int { 0 - n }

  function ParseExponent(t: Text): (r: Option<(Option<int>, Text)>)
    ensures r.Some? ==> |r.value.1| <= |t|
  {
    if t == [] || t[0] != EXPONENT then Some((None, t))
    else if |t| < 2 || (t[1] != MINUS && t[1] != PLUS) then None
    else
      var r := ParseDigits(t[2..]);
      if r.None? then None else Some((Some(if t[1] == MINUS then Negated(r.value.0) else r.value.0), r.value.1))
  }

  function ParseUnsigned(negative: bool, t: Text): (r: Option<(Decimal, Text)>)
    ensures r.Some? ==> |r.value.1| < |t|
  {
    var whole := ParseDigits(t);
    if whole.None? then None
    else
      var fraction := ParseFraction(whole.value.1);
      if fraction.None? then None
      else
        var exponent := ParseExponent(fraction.value.1);
        if exponent.None? then None
        else Some((Decimal(negative, whole.value.0, fraction.value.0, exponent.value.0), exponent.value.1))
  }

  function ParseNum(t: Text): (r: Option<(Decimal, Text)>)
    ensures r.Some? ==> |r.value.1| < |t|
  {
    if t != [] && t[0] == MINUS then ParseUnsigned(true, t[1..]) else ParseUnsigned(false, t)
  }

  lemma {:induction false} DigitsParse(n: nat, rest: Text)
    requires NoDigit(rest)
    ensures ParseDigits(Digits(n) + rest) == Some((n, rest))
  {
    SpanRoundTrip(Digits(n), rest);
    DigitsRoundTrip(n);
    var t := Digits(n) + rest;
    hide Span, Value, Digits;
    assert t[..|Digits(n)|] == Digits(n) && t[|Digits(n)|..] == rest;
  }

  lemma {:induction false} PointParse(t: Text, n: nat)
    requires t != [] && t[0] == POINT && n > 0 && Span(t[1..]) == n
    ensures ParseFraction(t).Some? && ParseFraction(t).value == (t[1..][..n], t[1..][n..])
  {
    hide Span;
  }

  lemma {:induction false} FractionParse(fraction: DigitText, rest: Text)
    requires NoDigit(rest) && (rest != [] ==> rest[0] != POINT)
    ensures ParseFraction(FractionText(fraction) + rest) == Some((fraction, rest))
  {
    if fraction == [] {
      assert FractionText(fraction) + rest == rest;
    } else {
      hide Span, ParseFraction, NoDigit, IsDigit;
      SpanRoundTrip(fraction, rest);
      var t := FractionText(fraction) + rest;
      assert t[1..] == fraction + rest;
      PointParse(t, |fraction|);
      assert (fraction + rest)[..|fraction|] == fraction && (fraction + rest)[|fraction|..] == rest;
    }
  }

  lemma {:induction false} SignedParse(sign: Unit, n: nat, rest: Text)
    requires (sign == MINUS || sign == PLUS) && NoDigit(rest)
    ensures ParseExponent([EXPONENT, sign] + Digits(n) + rest) == Some((Some(if sign == MINUS then Negated(n) else n), rest))
  {
    hide ParseDigits, Digits, NoDigit;
    DigitsParse(n, rest);
    var t := [EXPONENT, sign] + Digits(n) + rest;
    assert t[2..] == Digits(n) + rest;
  }

  lemma {:induction false} ExponentParse(e: Option<int>, rest: Text)
    requires Ends(rest)
    ensures ParseExponent(ExponentText(e) + rest) == Some((e, rest))
  {
    if e.None? {
      assert ExponentText(e) + rest == rest;
    } else if e.value < 0 {
      SignedParse(MINUS, -e.value, rest);
    } else {
      SignedParse(PLUS, e.value, rest);
    }
    hide ParseExponent, Digits;
  }

  /** Neither part of the tail can be taken for digits before it. */
  lemma {:induction false} TailStarts(n: Decimal, rest: Text)
    requires Ends(rest)
    ensures var last := ExponentText(n.exponent) + rest;
      NoDigit(last) && (last != [] ==> last[0] != POINT) && NoDigit(FractionText(n.fraction) + last)
  {
    var last := ExponentText(n.exponent) + rest;
    if n.exponent.None? { assert last == rest; }
    if n.fraction == [] { assert FractionText(n.fraction) + last == last; }
  }

  lemma {:induction false} UnsignedRoundTrip(n: Decimal, rest: Text)
    requires Ends(rest)
    ensures ParseUnsigned(n.negative, Digits(n.whole) + (FractionText(n.fraction) + (ExponentText(n.exponent) + rest))) == Some((n, rest))
  {
    hide ParseDigits, ParseFraction, ParseExponent, Digits, FractionText, ExponentText, Ends, NoDigit;
    var last := ExponentText(n.exponent) + rest;
    TailStarts(n, rest);
    ExponentParse(n.exponent, rest);
    FractionParse(n.fraction, last);
    DigitsParse(n.whole, FractionText(n.fraction) + last);
  }

  lemma {:induction false} NumRoundTrip(n: Decimal, rest: Text)
    requires Ends(rest)
    ensures ParseNum(NumText(n) + rest) == Some((n, rest))
  {
    hide ParseUnsigned, Digits, FractionText, ExponentText, Ends;
    var all := Digits(n.whole) + (FractionText(n.fraction) + (ExponentText(n.exponent) + rest));
    UnsignedRoundTrip(n, rest);
    assert all[0] == Digits(n.whole)[0];
    if n.negative {
      assert NumText(n) + rest == [MINUS] + all;
      assert ([MINUS] + all)[1..] == all;
    } else {
      assert NumText(n) + rest == all;
    }
  }

  // ---- values ----

  /** JSON.stringify. */
  function Print(v: Json): Text {
    match v
    case Null => NULL
    case Bool(b) => if b then TRUE else FALSE
    case Num(n) => NumText(n)
    case Str(s) => [QUOTE] + Quoted(s)
    case Arr(items) => [OPEN] + PrintItems(items) + [CLOSE]
    case Obj(entries) => [OPEN_BRACE] + PrintEntries(entries) + [CLOSE_BRACE]
  }

  function PrintItems(items: seq<Json>): Text {
    if items == [] then []
    else Print(items[0]) + (if |items| == 1 then [] else [COMMA] + PrintItems(items[1..]))
  }

  function PrintEntry(e: Entry): Text { [QUOTE] + Quoted(e.key) + [COLON] + Print(e.value) }

  function PrintEntries(entries: seq<Entry>): Text {
    if entries == [] then []
    else PrintEntry(entries[0]) + (if |entries| == 1 then [] else [COMMA] + PrintEntries(entries[1..]))
  }

  function ParseValue(t: Text): (r: Option<(Json, Text)>)
    decreases |t|, 0
    ensures r.Some? ==> |r.value.1| < |t|
  {
    if t == [] then None
    else if t[0] == QUOTE then
      var r := ParseString(t[1..]);
      if r.None? then None else Some((Str(r.value.0), r.value.1))
    else if t[0] == OPEN then
      if |t| >= 2 && t[1] == CLOSE then Some((Arr([]), t[2..]))
      else
        var r := ParseItems(t[1..]);
        if r.None? then None else Some((Arr(r.value.0), r.value.1))
    else if t[0] == OPEN_BRACE then
      if |t| >= 2 && t[1] == CLOSE_BRACE then Some((Obj([]), t[2..]))
      else
        var r := ParseEntries(t[1..]);
        if r.None? then None else Some((Obj(r.value.0), r.value.1))
    else if NULL <= t then Some((Null, t[4..]))
    else if TRUE <= t then Some((Bool(true), t[4..]))
    else if FALSE <= t then Some((Bool(false), t[5..]))
    else
      var r := ParseNum(t);
      if r.None? then None else Some((Num(r.value.0), r.value.1))
  }

  /** One or more values, up to and including the closing bracket. */
  function ParseItems(t: Text): (r: Option<(seq<Json>, Text)>)
    decreases |t|, 1
    ensures r.Some? ==> |r.value.1| < |t|
  {
    var first := ParseValue(t);
    if first.None? || first.value.1 == [] then None
    else
      var after := first.value.1;
      if after[0] == CLOSE then Some(([first.value.0], after[1..]))
      else if after[0] != COMMA then None
      else
        var others := ParseItems(after[1..]);
        if others.None? then None else Some(([first.value.0] + others.value.0, others.value.1))
  }

  function ParseEntry(t: Text): (r: Option<(Entry, Text)>)
    decreases |t|, 1
    ensures r.Some? ==> |r.value.1| < |t|
  {
    if t == [] || t[0] != QUOTE then None
    else
      var key := ParseString(t[1..]);
      if key.None? || key.value.1 == [] || key.value.1[0] != COLON then None
      else
        var value := ParseValue(key.value.1[1..]);
        if value.None? then None else Some((Entry(key.value.0, value.value.0), value.value.1))
  }

  function ParseEntries(t: Text): (r: Option<(seq<Entry>, Text)>)
    decreases |t|, 2
    ensures r.Some? ==> |r.value.1| < |t|
  {
    var first := ParseEntry(t);
    if first.None? || first.value.1 == [] then None
    else
      var after := first.value.1;
      if after[0] == CLOSE_BRACE then Some(([first.value.0], after[1..]))
      else if after[0] != COMMA then None
      else
        var others := ParseEntries(after[1..]);
        if others.None? then None else Some(([first.value.0] + others.value.0, others.value.1))
  }

  /** A value never begins with a closing bracket, and tells its kind by its first unit. */
  lemma {:induction false} PrintStarts(v: Json)
    ensures Print(v) != [] && Print(v)[0] != CLOSE && Print(v)[0] != CLOSE_BRACE
    ensures Print(v)[0] == QUOTE <==> v.Str?
    ensures Print(v)[0] == OPEN <==> v.Arr?
    ensures Print(v)[0] == OPEN_BRACE <==> v.Obj?
    ensures v.Num? ==> Print(v)[0] == MINUS || IsDigit(Print(v)[0])
  {}

  // ---- one step of the parser on printed text ----

  lemma {:induction false} ParseLastItem(v: Json, t: Text, rest: Text)
    requires ParseValue(t) == Some((v, [CLOSE] + rest))
    ensures ParseItems(t) == Some(([v], rest))
  {
    assert ([CLOSE] + rest)[1..] == rest;
  }

  lemma {:induction false} ParseNextItem(v: Json, t: Text, more: Text, items: seq<Json>, rest: Text)
    requires ParseValue(t) == Some((v, [COMMA] + more)) && ParseItems(more) == Some((items, rest))
    ensures ParseItems(t) == Some(([v] + items, rest))
  {
    assert ([COMMA] + more)[1..] == more;
  }

  lemma {:induction false} ParseLastEntry(e: Entry, t: Text, rest: Text)
    requires ParseEntry(t) == Some((e, [CLOSE_BRACE] + rest))
    ensures ParseEntries(t) == Some(([e], rest))
  {
    assert ([CLOSE_BRACE] + rest)[1..] == rest;
  }

  lemma {:induction false} ParseNextEntry(e: Entry, t: Text, more: Text, entries: seq<Entry>, rest: Text)
    requires ParseEntry(t) == Some((e, [COMMA] + more)) && ParseEntries(more) == Some((entries, rest))
    ensures ParseEntries(t) == Some(([e] + entries, rest))
  {
    assert ([COMMA] + more)[1..] == more;
  }

  lemma {:induction false} ParseKeyValue(e: Entry, keyed: Text, valued: Text, rest: Text)
    requires ParseString(keyed) == Some((e.key, [COLON] + valued)) && ParseValue(valued) == Some((e.value, rest))
    ensures ParseEntry([QUOTE] + keyed) == Some((e, rest))
  {
    assert ([QUOTE] + keyed)[1..] == keyed && ([COLON] + valued)[1..] == valued;
  }

  lemma {:induction false} ParseArray(items: seq<Json>, t: Text, rest: Text)
    requires t != [] && t[0] != CLOSE && ParseItems(t) == Some((items, rest))
    ensures ParseValue([OPEN] + t) == Some((Arr(items), rest))
  {
    assert ([OPEN] + t)[1..] == t;
  }

  lemma {:induction false} ParseObject(entries: seq<Entry>, t: Text, rest: Text)
    requires t != [] && t[0] != CLOSE_BRACE && ParseEntries(t) == Some((entries, rest))
    ensures ParseValue([OPEN_BRACE] + t) == Some((Obj(entries), rest))
  {
    assert ([OPEN_BRACE] + t)[1..] == t;
  }

  lemma {:induction false} ParseQuoted(s: Text, rest: Text)
    ensures ParseValue([QUOTE] + (Quoted(s) + rest)) == Some((Str(s), rest))
  {
    StringRoundTrip(s, rest);
    assert ([QUOTE] + (Quoted(s) + rest))[1..] == Quoted(s) + rest;
  }

  lemma {:induction false} NumStarts(n: Decimal, rest: Text)
    ensures var t := NumText(n) + rest; t != [] && (t[0] == MINUS || IsDigit(t[0]))
  {
    hide Digits;
  }

  lemma {:induction false} ParseNumber(n: Decimal, t: Text, rest: Text)
    requires t != [] && (t[0] == MINUS || IsDigit(t[0])) && ParseNum(t) == Some((n, rest))
    ensures ParseValue(t) == Some((Num(n), rest))
  {
    hide ParseNum;
  }

  /** Values without parts. */
  lemma {:induction false} ScalarRoundTrip(v: Json, rest: Text)
    requires Ends(rest) && !v.Arr? && !v.Obj?
    ensures ParseValue(Print(v) + rest) == Some((v, rest))
  {
    var t := Print(v) + rest;
    match v
    case Null => assert t[4..] == rest;
    case Bool(b) => assert if b then t[4..] == rest else t[5..] == rest;
    case Num(n) =>
      hide ParseValue, ParseNum, NumText, Ends;
      NumStarts(n, rest);
      NumRoundTrip(n, rest);
      ParseNumber(n, t, rest);
    case Str(s) =>
      hide ParseValue, Quoted;
      ParseQuoted(s, rest);
      assert t == [QUOTE] + (Quoted(s) + rest);
  }

  lemma {:induction false} EmptyRoundTrip(v: Json, rest: Text)
    requires v == Arr([]) || v == Obj([])
    ensures ParseValue(Print(v) + rest) == Some((v, rest))
  {
    assert (Print(v) + rest)[2..] == rest;
  }

  lemma {:induction false} ArrayRoundTrip(items: seq<Json>, rest: Text)
    requires items != [] && ParseItems(PrintItems(items) + ([CLOSE] + rest)) == Some((items, rest))
    ensures ParseValue(Print(Arr(items)) + rest) == Some((Arr(items), rest))
  {
    var t := PrintItems(items) + ([CLOSE] + rest);
    PrintStarts(items[0]);
    hide ParseItems, ParseValue;
    assert t[0] == Print(items[0])[0];
    ParseArray(items, t, rest);
    assert Print(Arr(items)) + rest == [OPEN] + t;
  }

  lemma {:induction false} ObjectRoundTrip(entries: seq<Entry>, rest: Text)
    requires entries != [] && ParseEntries(PrintEntries(entries) + ([CLOSE_BRACE] + rest)) == Some((entries, rest))
    ensures ParseValue(Print(Obj(entries)) + rest) == Some((Obj(entries), rest))
  {
    var t := PrintEntries(entries) + ([CLOSE_BRACE] + rest);
    hide ParseEntries, ParseValue, Quoted;
    assert t[0] == QUOTE;
    ParseObject(entries, t, rest);
    assert Print(Obj(entries)) + rest == [OPEN_BRACE] + t;
  }

  /** Printed text reads back as the value, whatever follows it. */
  lemma {:induction false} PrintRoundTrip(v: Json, rest: Text)
    requires Ends(rest)
    ensures ParseValue(Print(v) + rest) == Some((v, rest))
    decreases v, 0
  {
    hide ParseValue, ParseItems, ParseEntries, Print;
    if v.Arr? && v.items != [] {
      ItemsRoundTrip(v.items, rest);
      ArrayRoundTrip(v.items, rest);
    } else if v.Obj? && v.entries != [] {
      EntriesRoundTrip(v.entries, rest);
      ObjectRoundTrip(v.entries, rest);
    } else if v.Arr? || v.Obj? {
      EmptyRoundTrip(v, rest);
    } else {
      ScalarRoundTrip(v, rest);
    }
  }

  lemma {:induction false} ItemsSplit(items: seq<Json>, x: Text)
    requires |items| > 1
    ensures PrintItems(items) + x == Print(items[0]) + ([COMMA] + (PrintItems(items[1..]) + x))
  {
    hide Print;
  }

  lemma {:induction false} ItemsRoundTrip(items: seq<Json>, rest: Text)
    requires items != []
    ensures ParseItems(PrintItems(items) + ([CLOSE] + rest)) == Some((items, rest))
    decreases items, 1
  {
    hide ParseItems, ParseValue, Print;
    var t := PrintItems(items) + ([CLOSE] + rest);
    if |items| == 1 {
      PrintRoundTrip(items[0], [CLOSE] + rest);
      assert t == Print(items[0]) + ([CLOSE] + rest);
      ParseLastItem(items[0], t, rest);
      assert items == [items[0]];
    } else {
      ItemsRoundTrip(items[1..], rest);
      var more := PrintItems(items[1..]) + ([CLOSE] + rest);
      ItemsSplit(items, [CLOSE] + rest);
      hide PrintItems;
      PrintRoundTrip(items[0], [COMMA] + more);
      ParseNextItem(items[0], t, more, items[1..], rest);
      assert items == [items[0]] + items[1..];
    }
  }

  lemma {:induction false} EntryRoundTrip(e: Entry, rest: Text)
    requires Ends(rest)
    ensures ParseEntry(PrintEntry(e) + rest) == Some((e, rest))
    decreases e, 1
  {
    hide ParseEntry, ParseValue, ParseString, Quoted, Print;
    var valued := Print(e.value) + rest;
    var keyed := Quoted(e.key) + ([COLON] + valued);
    StringRoundTrip(e.key, [COLON] + valued);
    PrintRoundTrip(e.value, rest);
    ParseKeyValue(e, keyed, valued, rest);
    assert PrintEntry(e) + rest == [QUOTE] + keyed;
  }

  lemma {:induction false} EntriesSplit(entries: seq<Entry>, x: Text)
    requires |entries| > 1
    ensures PrintEntries(entries) + x == PrintEntry(entries[0]) + ([COMMA] + (PrintEntries(entries[1..]) + x))
  {
    hide PrintEntry;
  }

  lemma {:induction false} EntriesRoundTrip(entries: seq<Entry>, rest: Text)
    requires entries != []
    ensures ParseEntries(PrintEntries(entries) + ([CLOSE_BRACE] + rest)) == Some((entries, rest))
    decreases entries, 1
  {
    hide ParseEntries, ParseEntry, PrintEntry;
    var t := PrintEntries(entries) + ([CLOSE_BRACE] + rest);
    if |entries| == 1 {
      EntryRoundTrip(entries[0], [CLOSE_BRACE] + rest);
      assert t == PrintEntry(entries[0]) + ([CLOSE_BRACE] + rest);
      ParseLastEntry(entries[0], t, rest);
      assert entries == [entries[0]];
    } else {
      EntriesRoundTrip(entries[1..], rest);
      var more := PrintEntries(entries[1..]) + ([CLOSE_BRACE] + rest);
      EntriesSplit(entries, [CLOSE_BRACE] + rest);
      hide PrintEntries;
      EntryRoundTrip(entries[0], [COMMA] + more);
      ParseNextEntry(entries[0], t, more, entries[1..], rest);
      assert entries == [entries[0]] + entries[1..];
    }
  }

  /** Distinct values print differently. */
  lemma {:induction false} PrintInjective(v: Json, w: Json)
    requires Print(v) == Print(w)
    ensures v == w
  {
    PrintRoundTrip(v, []);
    PrintRoundTrip(w, []);
    assert Print(v) + [] == Print(v) && Print(w) + [] == Print(w);
  }
}
