/** JSON text over UTF-16 code units: a printer for canonical values and a parser that inverts it. */
module JsonText {
  import opened Wrappers

  type CodeUnit = u: int | 0 <= u < 0x10000

  type Text = seq<CodeUnit>

  /** A canonical value: finite numbers, and objects as their members in printed order. */
  datatype Json =
    | JNull
    | JBool(b: bool)
    | JString(s: Text)
    | JNumber(r: Double)
    | JArray(items: seq<Json>)
    | JObject(members: seq<Member>)

  datatype Member = Member(key: Text, value: Json)

  /** mantissa * 2^exponent. */
  datatype Binary = Binary(mantissa: int, exponent: int)

  /** The finite numbers of the runtime: IEEE 754 doubles, each with an odd mantissa, or zero. */
  type Double = b: Binary | IsDouble(b) witness Binary(0, 0)

  const ZERO: Double := Binary(0, 0)

  function Pow2(n: nat): (r: nat)
    ensures r >= 1
  {
    if n == 0 then 1 else 2 * Pow2(n - 1)
  }

  predicate IsDouble(b: Binary) {
    || b == Binary(0, 0)
    || (b.mantissa % 2 == 1 && -0x20_0000_0000_0000 < b.mantissa < 0x20_0000_0000_0000 && -1074 <= b.exponent <= 1023
        && (b.exponent > 971 ==> 0 - Pow2(1024 - b.exponent) < b.mantissa < Pow2(1024 - b.exponent)))
  }

  /** Number printing and reading, which the runtime supplies. */
  datatype Numerals = Numerals(show: Double -> Text, read: Text -> Option<Double>)

  const QUOTE: CodeUnit := 0x22
  const BACKSLASH: CodeUnit := 0x5C
  const COMMA: CodeUnit := 0x2C
  const COLON: CodeUnit := 0x3A
  const OPEN_BRACKET: CodeUnit := 0x5B
  const CLOSE_BRACKET: CodeUnit := 0x5D
  const OPEN_BRACE: CodeUnit := 0x7B
  const CLOSE_BRACE: CodeUnit := 0x7D
  const LOWER_U: CodeUnit := 0x75
  const NULL_TEXT: Text := [0x6E, 0x75, 0x6C, 0x6C]
  const TRUE_TEXT: Text := [0x74, 0x72, 0x75, 0x65]
  const FALSE_TEXT: Text := [0x66, 0x61, 0x6C, 0x73, 0x65]

  /** Digits, sign, point and exponent: the alphabet of section 6 of RFC 8259. */
  predicate IsNumeral(u: CodeUnit) {
    0x30 <= u <= 0x39 || u == 0x2D || u == 0x2B || u == 0x2E || u == 0x65 || u == 0x45
  }

  predicate IsNumeralText(t: Text) {
    |t| > 0 && forall i :: 0 <= i < |t| ==> IsNumeral(t[i])
  }

  /** What is used of number printing: numerals only, and reading gives the number back. */
  ghost predicate ValidNumerals(n: Numerals) {
    forall r: Double :: IsNumeralText(n.show(r)) && n.read(n.show(r)) == Some(r)
  }

  // ---- Numbers -------------------------------------------------------------------------------------

  /** The number itself. */
  function RealOf(d: Double): real {
    if d.exponent >= 0 then (d.mantissa * Pow2(d.exponent)) as real else d.mantissa as real / Pow2(-d.exponent) as real
  }

  predicate IsInteger(d: Double) {
    d.exponent >= 0
  }

  lemma {:induction false} Pow2Sum(m: nat, n: nat)
    ensures Pow2(m + n) == Pow2(m) * Pow2(n)
  {
    if m > 0 {
      Pow2Sum(m - 1, n);
      assert 2 * (Pow2(m - 1) * Pow2(n)) == 2 * Pow2(m - 1) * Pow2(n);
    }
  }

  lemma {:induction false} ScaledIsEven(x: int, n: nat)
    requires n > 0
    ensures (x * Pow2(n)) % 2 == 0
  {
    assert x * Pow2(n) == 2 * (x * Pow2(n - 1));
  }

  lemma {:induction false} ProductOfCasts(x: int, y: int)
    ensures (x * y) as real == x as real * y as real
  {
  }

  lemma {:induction false} QuotientTimes(x: real, y: real, z: real)
    requires y > 0.0
    ensures (x / y) * (z * y) == x * z
  {
    assert (x / y) * y == x;
    assert (x / y) * (z * y) == ((x / y) * y) * z;
  }

  /** Scaled by a large enough power of two, the number is an integer. */
  lemma {:induction false} Scaled(d: Double, k: nat)
    requires d.exponent + k >= 0
    ensures RealOf(d) * Pow2(k) as real == (d.mantissa * Pow2(d.exponent + k)) as real
  {
    hide Pow2;
    if d.exponent >= 0 {
      Pow2Sum(d.exponent, k);
      ProductOfCasts(d.mantissa * Pow2(d.exponent), Pow2(k));
      Regroup(d.mantissa, Pow2(d.exponent), Pow2(k));
    } else {
      Pow2Sum(d.exponent + k, -d.exponent);
      var x, y, z := d.mantissa as real, Pow2(-d.exponent) as real, Pow2(d.exponent + k) as real;
      ProductOfCasts(Pow2(d.exponent + k), Pow2(-d.exponent));
      ProductOfCasts(d.mantissa, Pow2(d.exponent + k));
      QuotientTimes(x, y, z);
    }
  }

  lemma {:induction false} Regroup(x: int, y: int, z: int)
    ensures (x * y) * z == x * (y * z)
  {
  }

  lemma {:induction false} IntegerTimesPow2(i: int, m: int, n: nat)
    requires n > 0 && i as real * Pow2(n) as real == m as real
    ensures m % 2 == 0
  {
    hide Pow2;
    ProductOfCasts(i, Pow2(n));
    CastInjective(i * Pow2(n), m);
    ScaledIsEven(i, n);
  }

  lemma {:induction false} CastInjective(x: int, y: int)
    requires x as real == y as real
    ensures x == y
  {
    assert (x as real).Floor == x && (y as real).Floor == y;
  }

  lemma {:induction false} FractionalPart(d: Double)
    requires d.exponent < 0
    ensures RealOf(d).Floor as real != RealOf(d)
  {
    hide Pow2, RealOf;
    var i := RealOf(d).Floor;
    Scaled(d, -d.exponent);
    Pow2Zero();
    if i as real == RealOf(d) { IntegerTimesPow2(i, d.mantissa, -d.exponent); }
  }

  /** The exponent tells whether the number is an integer. */
  lemma {:induction false} IntegersHaveNoFraction(d: Double)
    ensures IsInteger(d) <==> RealOf(d).Floor as real == RealOf(d)
  {
    if d.exponent < 0 { FractionalPart(d); }
  }

  lemma {:induction false} Pow2Zero()
    ensures Pow2(0) == 1
  {
  }

  /** Every number has one representation. */
  lemma {:induction false} SameNumberSameDouble(a: Double, b: Double)
    requires RealOf(a) == RealOf(b)
    ensures a == b
  {
    hide Pow2;
    Scaled(a, 1074);
    Scaled(b, 1074);
    if a.exponent <= b.exponent { SameScaled(a, b); } else { SameScaled(b, a); }
  }

  lemma {:induction false} SameScaled(a: Double, b: Double)
    requires a.exponent <= b.exponent
    requires a.mantissa * Pow2(a.exponent + 1074) == b.mantissa * Pow2(b.exponent + 1074)
    ensures a == b
  {
    hide Pow2;
    var k, p := b.exponent - a.exponent, Pow2(a.exponent + 1074);
    Pow2Sum(k, a.exponent + 1074);
    Regroup(b.mantissa, Pow2(k), p);
    Cancel(a.mantissa, b.mantissa * Pow2(k), p);
    if k > 0 { ScaledIsEven(b.mantissa, k); } else { Pow2Zero(); }
    ProductZero(b.mantissa, Pow2(k));
  }

  lemma {:induction false} Cancel(x: int, y: int, p: int)
    requires p > 0 && x * p == y * p
    ensures x == y
  {
    if x != y { DifferenceTimes(x - y, p); }
  }

  lemma {:induction false} DifferenceTimes(x: int, p: int)
    requires x != 0 && p > 0
    ensures x * p != 0
  {
  }

  lemma {:induction false} ProductZero(x: int, p: int)
    requires p > 0
    ensures x * p == 0 <==> x == 0
  {
    if x != 0 { DifferenceTimes(x, p); }
  }

  // ---- One way of printing numbers -------------------------------------------------------------------

  const MINUS: CodeUnit := 0x2D
  const LOWER_E: CodeUnit := 0x65

  predicate IsDigit(u: CodeUnit) {
    0x30 <= u <= 0x39
  }

  function ShowNat(n: nat): (t: Text)
    ensures |t| > 0 && forall i :: 0 <= i < |t| ==> IsDigit(t[i])
  {
    (if n < 10 then [] else ShowNat(n / 10)) + [0x30 + n % 10]
  }

  function ReadNat(t: Text): int {
    if t == [] then 0 else
    var last: int := t[|t| - 1];
    10 * ReadNat(t[..|t| - 1]) + last - 0x30
  }

  function ShowInt(i: int): (t: Text)
    ensures |t| > 0 && forall k :: 0 <= k < |t| ==> IsDigit(t[k]) || t[k] == MINUS
  {
    if i < 0 then [MINUS] + ShowNat(-i) else ShowNat(i)
  }

  function ReadInt(t: Text): int {
    if t != [] && t[0] == MINUS then -ReadNat(t[1..]) else ReadNat(t)
  }

  lemma {:induction false} ReadShownNat(n: nat)
    ensures ReadNat(ShowNat(n)) == n
  {
    var t := ShowNat(n);
    if n < 10 {
      assert t[..0] == [];
    } else {
      ReadShownNat(n / 10);
      assert t[..|t| - 1] == ShowNat(n / 10);
    }
  }

  lemma {:induction false} ReadShownInt(i: int)
    ensures ReadInt(ShowInt(i)) == i
  {
    if i < 0 {
      ReadShownNat(-i);
      assert ShowInt(i)[1..] == ShowNat(-i);
    } else {
      ReadShownNat(i);
      assert IsDigit(ShowNat(i)[0]);
    }
  }

  /** The mantissa, and the exponent of two when there is one. */
  function ShowBinary(d: Double): Text {
    ShowInt(d.mantissa) + if d.exponent == 0 then [] else [LOWER_E] + ShowInt(d.exponent)
  }

  function MantissaEnd(t: Text): (k: nat)
    ensures k <= |t|
  {
    if t == [] || t[0] == LOWER_E then 0 else 1 + MantissaEnd(t[1..])
  }

  function ReadBinary(t: Text): Option<Double> {
    var k := MantissaEnd(t);
    var b := Binary(ReadInt(t[..k]), if k == |t| then 0 else ReadInt(t[k + 1..]));
    if IsDouble(b) then Some(b) else None
  }

  lemma {:induction false} MantissaEndsAt(t: Text, rest: Text)
    requires (forall i :: 0 <= i < |t| ==> t[i] != LOWER_E) && (rest == [] || rest[0] == LOWER_E)
    ensures MantissaEnd(t + rest) == |t|
    decreases |t|
  {
    if t == [] {
      assert t + rest == rest;
    } else {
      MantissaEndsAt(t[1..], rest);
      assert (t + rest)[1..] == t[1..] + rest;
    }
  }

  lemma {:induction false} ShownIsNumeral(d: Double)
    ensures IsNumeralText(ShowBinary(d))
  {
    hide ShowInt;
    var m, e := ShowInt(d.mantissa), ShowInt(d.exponent);
    assert ShowBinary(d) == m || ShowBinary(d) == m + ([LOWER_E] + e);
  }

  lemma {:induction false} Parts(m: Text, e: Text)
    ensures (m + ([LOWER_E] + e))[..|m|] == m && (m + ([LOWER_E] + e))[|m| + 1..] == e
    ensures (m + [])[..|m|] == m && |m + []| == |m|
  {
  }

  lemma {:induction false} ReadShownBinary(d: Double)
    ensures ReadBinary(ShowBinary(d)) == Some(d)
  {
    hide IsDouble, ShowInt, ReadInt, MantissaEnd;
    var m, e := ShowInt(d.mantissa), ShowInt(d.exponent);
    ReadShownInt(d.mantissa);
    ReadShownInt(d.exponent);
    Parts(m, e);
    MantissaEndsAt(m, if d.exponent == 0 then [] else [LOWER_E] + e);
  }

  /** The numbers can be printed as required: the theorems below are about something. */
  lemma {:induction false} NumeralsExist()
    ensures ValidNumerals(Numerals(ShowBinary, ReadBinary)) && ShowBinary(ZERO) == [0x30]
  {
    forall d: Double ensures IsNumeralText(ShowBinary(d)) && ReadBinary(ShowBinary(d)) == Some(d) {
      ReadShownBinary(d);
      ShownIsNumeral(d);
    }
  }

  // ---- Strings ----------------------------------------------------------------------------------

  predicate IsHighSurrogate(u: CodeUnit) {
    0xD800 <= u < 0xDC00
  }

  predicate IsLowSurrogate(u: CodeUnit) {
    0xDC00 <= u < 0xE000
  }

  function HexDigit(d: int): CodeUnit
    requires 0 <= d < 16
  {
    if d < 10 then 0x30 + d else 0x61 + d - 10
  }

  function HexValue(u: CodeUnit): Option<int> {
    if 0x30 <= u <= 0x39 then Some(u - 0x30) else if 0x61 <= u <= 0x66 then Some(u - 0x61 + 10) else None
  }

  function UnicodeEscape(u: CodeUnit): Text {
    [BACKSLASH, LOWER_U, HexDigit(u / 0x1000), HexDigit(u / 0x100 % 16), HexDigit(u / 16 % 16), HexDigit(u % 16)]
  }

  /** The two-character escapes: b, t, n, f, r, the quotation mark and the backslash. */
  function ShortEscape(u: CodeUnit): Option<CodeUnit> {
    if u == 0x08 then Some(0x62) else if u == 0x09 then Some(0x74) else if u == 0x0A then Some(0x6E)
    else if u == 0x0C then Some(0x66) else if u == 0x0D then Some(0x72)
    else if u == QUOTE then Some(QUOTE) else if u == BACKSLASH then Some(BACKSLASH) else None
  }

  function EscapedBy(u: CodeUnit): Option<CodeUnit> {
    if u == 0x62 then Some(0x08) else if u == 0x74 then Some(0x09) else if u == 0x6E then Some(0x0A)
    else if u == 0x66 then Some(0x0C) else if u == 0x72 then Some(0x0D)
    else if u == QUOTE then Some(QUOTE) else if u == BACKSLASH then Some(BACKSLASH) else None
  }

  /** One code unit that is not part of a surrogate pair. */
  function EscapeUnit(u: CodeUnit): Text {
    if ShortEscape(u).Some? then [BACKSLASH, ShortEscape(u).value]
    else if u < 0x20 || IsHighSurrogate(u) || IsLowSurrogate(u) then UnicodeEscape(u)
    else [u]
  }

  function EscapeAll(s: Text): Text {
    if s == [] then []
    else if |s| >= 2 && IsHighSurrogate(s[0]) && IsLowSurrogate(s[1]) then [s[0], s[1]] + EscapeAll(s[2..])
    else EscapeUnit(s[0]) + EscapeAll(s[1..])
  }

  /** JSON.stringify of a string: quotes, escapes, and well-formed lone surrogates. */
  function Quote(s: Text): Text {
    [QUOTE] + EscapeAll(s) + [QUOTE]
  }

  function ParseEscape(t: Text): (r: Option<(CodeUnit, Text)>)
    ensures r.Some? ==> |r.value.1| < |t|
  {
    if t == [] then None
    else if t[0] == LOWER_U then
      if |t| < 5 then None else
        var a, b, c, d := HexValue(t[1]), HexValue(t[2]), HexValue(t[3]), HexValue(t[4]);
        if a.None? || b.None? || c.None? || d.None? then None
        else Some((a.value * 0x1000 + b.value * 0x100 + c.value * 16 + d.value, t[5..]))
    else if EscapedBy(t[0]).Some? then Some((EscapedBy(t[0]).value, t[1..]))
    else None
  }

  /** Reads up to the closing quotation mark. */
  function ParseChars(t: Text): (r: Option<(Text, Text)>)
    ensures r.Some? ==> |r.value.1| < |t|
    decreases |t|
  {
    if t == [] then None
    else if t[0] == QUOTE then Some(([], t[1..]))
    else if t[0] == BACKSLASH then
      var e := ParseEscape(t[1..]);
      if e.None? then None else
        var rest := ParseChars(e.value.1);
        if rest.None? then None else Some(([e.value.0] + rest.value.0, rest.value.1))
    else
      var rest := ParseChars(t[1..]);
      if rest.None? then None else Some(([t[0]] + rest.value.0, rest.value.1))
  }

  lemma {:induction false} HexRoundTrip(d: int)
    requires 0 <= d < 16
    ensures HexValue(HexDigit(d)) == Some(d)
  {}

  lemma {:induction false} HexSum(u: CodeUnit)
    ensures 0 <= u / 0x1000 < 16
    ensures (u / 0x1000) * 0x1000 + (u / 0x100 % 16) * 0x100 + (u / 16 % 16) * 16 + u % 16 == u
  {
    var a, b, c := u / 16, u / 0x100, u / 0x1000;
    assert b == a / 16 && c == b / 16;
    assert u == a * 16 + u % 16 && a == b * 16 + a % 16 && b == c * 16 + b % 16;
  }

  lemma {:induction false} ParseUnicodeEscape(u: CodeUnit, rest: Text)
    ensures ParseEscape(UnicodeEscape(u)[1..] + rest) == Some((u, rest))
  {
    hide HexDigit, HexValue;
    HexSum(u);
    HexRoundTrip(u / 0x1000);
    HexRoundTrip(u / 0x100 % 16);
    HexRoundTrip(u / 16 % 16);
    HexRoundTrip(u % 16);
    var t := UnicodeEscape(u)[1..] + rest;
    assert t[5..] == rest;
  }

  lemma {:induction false} ParseLiteralUnit(u: CodeUnit, tail: Text, s: Text, rest: Text)
    requires ParseChars(tail) == Some((s, rest)) && u != QUOTE && u != BACKSLASH
    ensures ParseChars([u] + tail) == Some(([u] + s, rest))
  {
    assert ([u] + tail)[1..] == tail;
  }

  lemma {:induction false} ParseEscapedUnit(e: Text, u: CodeUnit, tail: Text, s: Text, rest: Text)
    requires ParseChars(tail) == Some((s, rest)) && ParseEscape(e + tail) == Some((u, tail))
    ensures ParseChars([BACKSLASH] + e + tail) == Some(([u] + s, rest))
  {
    assert ([BACKSLASH] + e + tail)[1..] == e + tail;
  }

  lemma {:induction false} ParseShortEscape(u: CodeUnit, tail: Text)
    requires ShortEscape(u).Some?
    ensures ParseEscape([ShortEscape(u).value] + tail) == Some((u, tail))
  {
    assert ([ShortEscape(u).value] + tail)[1..] == tail;
  }

  lemma {:induction false} ParseOneUnit(u: CodeUnit, tail: Text, s: Text, rest: Text)
    requires ParseChars(tail) == Some((s, rest))
    ensures ParseChars(EscapeUnit(u) + tail) == Some(([u] + s, rest))
  {
    hide ParseChars, ParseEscape;
    if ShortEscape(u).Some? {
      ParseShortEscape(u, tail);
      ParseEscapedUnit([ShortEscape(u).value], u, tail, s, rest);
      assert EscapeUnit(u) == [BACKSLASH] + [ShortEscape(u).value];
    } else if u < 0x20 || IsHighSurrogate(u) || IsLowSurrogate(u) {
      ParseUnicodeEscape(u, tail);
      ParseEscapedUnit(UnicodeEscape(u)[1..], u, tail, s, rest);
      assert EscapeUnit(u) == [BACKSLASH] + UnicodeEscape(u)[1..];
    } else {
      ParseLiteralUnit(u, tail, s, rest);
    }
  }

  /** Escaping is inverted by reading up to the closing quotation mark. */
  lemma {:induction false} ParseEscaped(s: Text, rest: Text)
    ensures ParseChars(EscapeAll(s) + [QUOTE] + rest) == Some((s, rest))
    decreases |s|, 1
  {
    hide EscapeUnit;
    if s == [] {
      assert (EscapeAll(s) + [QUOTE] + rest)[1..] == rest;
    } else if |s| >= 2 && IsHighSurrogate(s[0]) && IsLowSurrogate(s[1]) {
      ParseEscapedPair(s, rest);
    } else {
      ParseEscaped(s[1..], rest);
      JoinUnit(s, EscapeUnit(s[0]), EscapeAll(s[1..]), rest);
    }
  }

  lemma {:induction false} JoinUnit(s: Text, e: Text, escaped: Text, rest: Text)
    requires s != [] && e == EscapeUnit(s[0]) && ParseChars(escaped + [QUOTE] + rest) == Some((s[1..], rest))
    ensures ParseChars(e + escaped + [QUOTE] + rest) == Some((s, rest))
  {
    hide EscapeUnit, ParseChars;
    ParseOneUnit(s[0], escaped + [QUOTE] + rest, s[1..], rest);
    assert e + escaped + [QUOTE] + rest == e + (escaped + [QUOTE] + rest);
    assert s == [s[0]] + s[1..];
  }

  lemma {:induction false} ParseEscapedPair(s: Text, rest: Text)
    requires |s| >= 2 && IsHighSurrogate(s[0]) && IsLowSurrogate(s[1])
    ensures ParseChars(EscapeAll(s) + [QUOTE] + rest) == Some((s, rest))
    decreases |s|, 0
  {
    hide ParseChars;
    var tail := EscapeAll(s[2..]) + [QUOTE] + rest;
    ParseEscaped(s[2..], rest);
    ParseLiteralUnit(s[1], tail, s[2..], rest);
    ParseLiteralUnit(s[0], [s[1]] + tail, [s[1]] + s[2..], rest);
    assert EscapeAll(s) + [QUOTE] + rest == [s[0]] + ([s[1]] + tail);
    assert s == [s[0]] + ([s[1]] + s[2..]);
  }

  // ---- Which characters are escaped ---------------------------------------------------------------

  predicate HighUnit(s: Text, i: int) {
    0 <= i < |s| && 0xD800 <= s[i] <= 0xDBFF
  }

  predicate LowUnit(s: Text, i: int) {
    0 <= i < |s| && 0xDC00 <= s[i] <= 0xDFFF
  }

  /** Every surrogate stands in a pair. */
  ghost predicate Paired(s: Text) {
    && (forall i :: HighUnit(s, i) ==> LowUnit(s, i + 1))
    && (forall i :: LowUnit(s, i) ==> HighUnit(s, i - 1))
  }

  /** No control character, and every surrogate in a pair. */
  ghost predicate Clean(t: Text) {
    Paired(t) && forall i :: 0 <= i < |t| ==> t[i] >= 0x20
  }

  lemma {:induction false} CleanConcat(a: Text, b: Text)
    requires Clean(a) && Clean(b)
    ensures Clean(a + b)
  {
    var t := a + b;
    forall i | HighUnit(t, i) ensures LowUnit(t, i + 1) {
      if i < |a| { assert HighUnit(a, i); } else { assert HighUnit(b, i - |a|); assert LowUnit(b, i - |a| + 1); }
    }
    forall i | LowUnit(t, i) ensures HighUnit(t, i - 1) {
      if i < |a| { assert LowUnit(a, i); assert HighUnit(a, i - 1); } else { assert LowUnit(b, i - |a|); assert HighUnit(b, i - |a| - 1); }
    }
  }

  lemma {:induction false} HexIsPlain(d: int)
    requires 0 <= d < 16
    ensures 0x30 <= HexDigit(d) < 0x80
  {
  }

  lemma {:induction false} CleanUnit(u: CodeUnit)
    ensures Clean(EscapeUnit(u))
  {
    HexIsPlain(u / 0x1000);
    HexIsPlain(u / 0x100 % 16);
    HexIsPlain(u / 16 % 16);
    HexIsPlain(u % 16);
    var t := EscapeUnit(u);
    assert forall i :: 0 <= i < |t| ==> 0x20 <= t[i] && !(0xD800 <= t[i] <= 0xDFFF);
  }

  lemma {:induction false} CleanPair(high: CodeUnit, low: CodeUnit)
    requires 0xD800 <= high <= 0xDBFF && 0xDC00 <= low <= 0xDFFF
    ensures Clean([high, low])
  {
  }

  lemma {:induction false} CleanEscapes(s: Text)
    ensures Clean(EscapeAll(s))
    decreases |s|
  {
    hide Clean;
    if s == [] {
      NothingIsClean();
    } else if |s| >= 2 && IsHighSurrogate(s[0]) && IsLowSurrogate(s[1]) {
      CleanPair(s[0], s[1]);
      CleanEscapes(s[2..]);
      CleanConcat([s[0], s[1]], EscapeAll(s[2..]));
    } else {
      CleanUnit(s[0]);
      CleanEscapes(s[1..]);
      CleanConcat(EscapeUnit(s[0]), EscapeAll(s[1..]));
    }
  }

  lemma {:induction false} NothingIsClean()
    ensures Clean([])
  {
  }

  /** A quoted text holds no control character and no surrogate on its own. */
  lemma {:induction false} QuotedIsClean(s: Text)
    ensures Clean(Quote(s)) && Quote(s)[0] == 0x22 == Quote(s)[|Quote(s)| - 1]
  {
    hide Clean;
    CleanEscapes(s);
    QuoteIsClean();
    CleanConcat([QUOTE], EscapeAll(s));
    CleanConcat([QUOTE] + EscapeAll(s), [QUOTE]);
  }

  lemma {:induction false} QuoteIsClean()
    ensures Clean([QUOTE])
  {
  }

  /** No quotation mark and no backslash. */
  ghost predicate Unmarked(s: Text) {
    forall i :: 0 <= i < |s| ==> s[i] != 0x22 && s[i] != 0x5C
  }

  lemma {:induction false} PlainStart(s: Text)
    requires Clean(s) && Unmarked(s) && s != []
    ensures StartsWithPair(s) ==> Clean(s[2..]) && Unmarked(s[2..])
    ensures !StartsWithPair(s) ==> EscapeUnit(s[0]) == [s[0]] && Clean(s[1..]) && Unmarked(s[1..])
  {
    hide Clean;
    assert Clean(s) ==> (HighUnit(s, 0) <==> StartsWithPair(s)) && !LowUnit(s, 0) && s[0] >= 0x20 by { FirstOfClean(s); }
    if StartsWithPair(s) {
      PlainTail(s, 2);
    } else {
      PlainTail(s, 1);
    }
  }

  lemma {:induction false} FirstOfClean(s: Text)
    requires s != [] && Clean(s)
    ensures (HighUnit(s, 0) <==> StartsWithPair(s)) && !LowUnit(s, 0) && s[0] >= 0x20
  {
    assert !HighUnit(s, -1);
    if HighUnit(s, 0) { assert LowUnit(s, 1); }
  }

  /** Nothing else is escaped: text without control characters, quotation marks, backslashes and lone surrogates stays. */
  lemma {:induction false} PlainStays(s: Text)
    requires Clean(s) && Unmarked(s)
    ensures EscapeAll(s) == s
    decreases |s|
  {
    hide Clean, Unmarked, EscapeUnit;
    if s != [] {
      PlainStart(s);
      EscapeUnfolds(s);
      if StartsWithPair(s) {
        PlainStays(s[2..]);
        TwoAndRest(s);
      } else {
        PlainStays(s[1..]);
        OneAndRest(s);
      }
    }
  }

  lemma {:induction false} OneAndRest(s: Text)
    requires s != []
    ensures s == [s[0]] + s[1..]
  {
  }

  lemma {:induction false} TwoAndRest(s: Text)
    requires |s| >= 2
    ensures s == [s[0], s[1]] + s[2..]
  {
  }

  lemma {:induction false} PlainTail(s: Text, k: nat)
    requires Clean(s) && 0 < k <= |s| && !HighUnit(s, k - 1)
    ensures Clean(s[k..])
  {
    var t := s[k..];
    forall i | HighUnit(t, i) ensures LowUnit(t, i + 1) { assert HighUnit(s, i + k); assert LowUnit(s, i + k + 1); }
    forall i | LowUnit(t, i) ensures HighUnit(t, i - 1) { assert LowUnit(s, i + k); assert HighUnit(s, i + k - 1); }
  }

  /** The value of four lower-case hexadecimal digits. */
  function HexNumber(t: Text): Option<int> {
    if t == [] then Some(0) else
    var before, u := HexNumber(t[..|t| - 1]), t[|t| - 1];
    if before.None? then None
    else if '0' as int <= u <= '9' as int then Some(16 * before.value + (u - '0' as int))
    else if 'a' as int <= u <= 'f' as int then Some(16 * before.value + 10 + (u - 'a' as int))
    else None
  }

  function Units(s: string): (t: Text)
    requires forall i :: 0 <= i < |s| ==> s[i] < '\U{80}'
    ensures |t| == |s| && forall i :: 0 <= i < |s| ==> t[i] == s[i] as int
  {
    seq(|s|, i requires 0 <= i < |s| => s[i] as int)
  }

  /** A control character, quotation mark, backslash or lone surrogate: its short escape, or its number. */
  lemma {:induction false} EscapesExactly(u: CodeUnit)
    ensures EscapeAll([u]) == EscapeUnit(u)
    ensures u == 8 ==> EscapeUnit(u) == Units("\\b")
    ensures u == 9 ==> EscapeUnit(u) == Units("\\t")
    ensures u == 10 ==> EscapeUnit(u) == Units("\\n")
    ensures u == 12 ==> EscapeUnit(u) == Units("\\f")
    ensures u == 13 ==> EscapeUnit(u) == Units("\\r")
    ensures u == 0x22 ==> EscapeUnit(u) == Units("\\\"")
    ensures u == 0x5C ==> EscapeUnit(u) == Units("\\\\")
    ensures (u < 32 && u !in {8, 9, 10, 12, 13}) || 0xD800 <= u <= 0xDFFF ==>
      var t := EscapeUnit(u);
      |t| == 6 && t[..2] == Units("\\u") && HexNumber(t[2..]) == Some(u)
  {
    assert EscapeAll([u]) == EscapeUnit(u) + EscapeAll([u][1..]);
    if (u < 32 && u !in {8, 9, 10, 12, 13}) || 0xD800 <= u <= 0xDFFF {
      FourDigits(u / 0x1000, u / 0x100 % 16, u / 16 % 16, u % 16);
      HexSum(u);
      assert UnicodeEscape(u)[2..]
        == [HexDigit(u / 0x1000), HexDigit(u / 0x100 % 16), HexDigit(u / 16 % 16), HexDigit(u % 16)];
    }
  }

  lemma {:induction false} OneMoreDigit(t: Text, d: int, v: int)
    requires 0 <= d < 16 && HexNumber(t) == Some(v)
    ensures HexNumber(t + [HexDigit(d)]) == Some(16 * v + d)
  {
    assert (t + [HexDigit(d)])[..|t|] == t;
  }

  lemma {:induction false} FourDigits(a: int, b: int, c: int, d: int)
    requires 0 <= a < 16 && 0 <= b < 16 && 0 <= c < 16 && 0 <= d < 16
    ensures HexNumber([HexDigit(a), HexDigit(b), HexDigit(c), HexDigit(d)]) == Some(a * 0x1000 + b * 0x100 + c * 16 + d)
  {
    hide HexDigit;
    assert HexNumber([]) == Some(0);
    hide HexNumber;
    var x, y, z, w: Text := [HexDigit(a)], [HexDigit(a), HexDigit(b)], [HexDigit(a), HexDigit(b), HexDigit(c)],
      [HexDigit(a), HexDigit(b), HexDigit(c), HexDigit(d)];
    assert x == [] + [HexDigit(a)] && y == x + [HexDigit(b)] && z == y + [HexDigit(c)] && w == z + [HexDigit(d)];
    OneMoreDigit([], a, 0);
    OneMoreDigit(x, b, a);
    OneMoreDigit(y, c, 16 * a + b);
    OneMoreDigit(z, d, 16 * (16 * a + b) + c);
  }

  predicate StartsWithPair(s: Text) {
    |s| >= 2 && IsHighSurrogate(s[0]) && IsLowSurrogate(s[1])
  }

  lemma {:induction false} EscapeUnfolds(s: Text)
    requires s != []
    ensures StartsWithPair(s) ==> EscapeAll(s) == [s[0], s[1]] + EscapeAll(s[2..])
    ensures !StartsWithPair(s) ==> EscapeAll(s) == EscapeUnit(s[0]) + EscapeAll(s[1..])
  {
  }

  /** Strings are escaped piece by piece, unless a pair of surrogates is torn apart. */
  lemma {:induction false} EscapeConcat(a: Text, b: Text)
    requires !(HighUnit(a, |a| - 1) && LowUnit(b, 0))
    ensures EscapeAll(a + b) == EscapeAll(a) + EscapeAll(b)
    decreases |a|
  {
    hide EscapeUnit, StartsWithPair;
    if a == [] {
      assert a + b == b;
      EscapeNothing(b);
    } else {
      hide EscapeAll, HighUnit, LowUnit;
      EscapeUnfolds(a);
      EscapeUnfolds(a + b);
      SameStart(a, b);
      if StartsWithPair(a) {
        TailEnds(a, b, 2);
        EscapeConcat(a[2..], b);
        Associates([a[0], a[1]], EscapeAll(a[2..]), EscapeAll(b));
      } else {
        TailEnds(a, b, 1);
        EscapeConcat(a[1..], b);
        Associates(EscapeUnit(a[0]), EscapeAll(a[1..]), EscapeAll(b));
      }
    }
  }

  lemma {:induction false} EscapeNothing(b: Text)
    ensures EscapeAll([]) + EscapeAll(b) == EscapeAll(b)
  {
  }

  lemma {:induction false} SameStart(a: Text, b: Text)
    requires a != [] && !(HighUnit(a, |a| - 1) && LowUnit(b, 0))
    ensures StartsWithPair(a + b) <==> StartsWithPair(a)
    ensures (a + b)[0] == a[0] && (StartsWithPair(a) ==> |a| >= 2 && (a + b)[1] == a[1])
  {
    if |a| == 1 && b != [] { assert (a + b)[1] == b[0]; }
  }

  lemma {:induction false} TailEnds(a: Text, b: Text, k: nat)
    requires k <= |a|
    ensures HighUnit(a[k..], |a[k..]| - 1) ==> HighUnit(a, |a| - 1)
    ensures (a + b)[k..] == a[k..] + b
  {
  }

  lemma {:induction false} Associates(a: Text, b: Text, c: Text)
    ensures a + (b + c) == a + b + c
  {
  }

  // ---- Values -----------------------------------------------------------------------------------

  function Print(j: Json, n: Numerals): Text
    decreases j, 1
  {
    match j
    case JNull => NULL_TEXT
    case JBool(b) => if b then TRUE_TEXT else FALSE_TEXT
    case JString(s) => Quote(s)
    case JNumber(r) => n.show(r)
    case JArray(items) => [OPEN_BRACKET] + PrintItems(items, n) + [CLOSE_BRACKET]
    case JObject(members) => [OPEN_BRACE] + PrintMembers(members, n) + [CLOSE_BRACE]
  }

  /** The items separated by commas. */
  function PrintItems(items: seq<Json>, n: Numerals): Text
    decreases items, 0
  {
    if items == [] then []
    else if |items| == 1 then Print(items[0], n)
    else Print(items[0], n) + [COMMA] + PrintItems(items[1..], n)
  }

  function PrintMember(m: Member, n: Numerals): Text
    decreases m, 0
  {
    Quote(m.key) + [COLON] + Print(m.value, n)
  }

  function PrintMembers(members: seq<Member>, n: Numerals): Text
    decreases members, 0
  {
    if members == [] then []
    else if |members| == 1 then PrintMember(members[0], n)
    else PrintMember(members[0], n) + [COMMA] + PrintMembers(members[1..], n)
  }

  predicate StartsWith(t: Text, prefix: Text) {
    |prefix| <= |t| && t[..|prefix|] == prefix
  }

  function NumeralPrefix(t: Text): (k: nat)
    ensures k <= |t|
  {
    if t == [] || !IsNumeral(t[0]) then 0 else 1 + NumeralPrefix(t[1..])
  }

  function ParseString(t: Text): (r: Option<(Text, Text)>)
    ensures r.Some? ==> |r.value.1| < |t|
  {
    if t == [] || t[0] != QUOTE then None else ParseChars(t[1..])
  }

  /** One value and the text after it. */
  function Parse(t: Text, n: Numerals): (r: Option<(Json, Text)>)
    ensures r.Some? ==> |r.value.1| < |t|
    decreases |t|, 0
  {
    if t == [] then None
    else if t[0] == QUOTE then
      var s := ParseString(t);
      if s.None? then None else Some((JString(s.value.0), s.value.1))
    else if t[0] == OPEN_BRACKET then
      if |t| >= 2 && t[1] == CLOSE_BRACKET then Some((JArray([]), t[2..])) else
        var items := ParseItems(t[1..], n);
        if items.None? then None else Some((JArray(items.value.0), items.value.1))
    else if t[0] == OPEN_BRACE then
      if |t| >= 2 && t[1] == CLOSE_BRACE then Some((JObject([]), t[2..])) else
        var members := ParseMembers(t[1..], n);
        if members.None? then None else Some((JObject(members.value.0), members.value.1))
    else if StartsWith(t, NULL_TEXT) then Some((JNull, t[4..]))
    else if StartsWith(t, TRUE_TEXT) then Some((JBool(true), t[4..]))
    else if StartsWith(t, FALSE_TEXT) then Some((JBool(false), t[5..]))
    else
      var k := NumeralPrefix(t);
      var r := n.read(t[..k]);
      if k == 0 || r.None? then None else Some((JNumber(r.value), t[k..]))
  }

  /** Items up to the closing bracket. */
  function ParseItems(t: Text, n: Numerals): (r: Option<(seq<Json>, Text)>)
    ensures r.Some? ==> |r.value.1| < |t|
    decreases |t|, 1
  {
    var first := Parse(t, n);
    if first.None? || first.value.1 == [] then None
    else if first.value.1[0] == CLOSE_BRACKET then Some(([first.value.0], first.value.1[1..]))
    else if first.value.1[0] == COMMA then
      var rest := ParseItems(first.value.1[1..], n);
      if rest.None? then None else Some(([first.value.0] + rest.value.0, rest.value.1))
    else None
  }

  function ParseMember(t: Text, n: Numerals): (r: Option<(Member, Text)>)
    ensures r.Some? ==> |r.value.1| < |t|
    decreases |t|, 1
  {
    var key := ParseString(t);
    if key.None? || key.value.1 == [] || key.value.1[0] != COLON then None else
      var value := Parse(key.value.1[1..], n);
      if value.None? then None else Some((Member(key.value.0, value.value.0), value.value.1))
  }

  /** Members up to the closing brace. */
  function ParseMembers(t: Text, n: Numerals): (r: Option<(seq<Member>, Text)>)
    ensures r.Some? ==> |r.value.1| < |t|
    decreases |t|, 2
  {
    var first := ParseMember(t, n);
    if first.None? || first.value.1 == [] then None
    else if first.value.1[0] == CLOSE_BRACE then Some(([first.value.0], first.value.1[1..]))
    else if first.value.1[0] == COMMA then
      var rest := ParseMembers(first.value.1[1..], n);
      if rest.None? then None else Some(([first.value.0] + rest.value.0, rest.value.1))
    else None
  }

  /** What may follow a printed value: nothing that would continue a number. */
  predicate Stops(rest: Text) {
    rest == [] || !IsNumeral(rest[0])
  }

  lemma {:induction false} NumeralPrefixStops(t: Text, rest: Text)
    requires (forall i :: 0 <= i < |t| ==> IsNumeral(t[i])) && Stops(rest)
    ensures NumeralPrefix(t + rest) == |t|
    decreases |t|
  {
    if t == [] {
      assert t + rest == rest;
    } else {
      NumeralPrefixStops(t[1..], rest);
      assert (t + rest)[1..] == t[1..] + rest;
    }
  }

  lemma {:induction false} ParseNumber(r: Double, rest: Text, n: Numerals)
    requires ValidNumerals(n) && Stops(rest)
    ensures Parse(n.show(r) + rest, n) == Some((JNumber(r), rest))
  {
    var shown := n.show(r);
    assert IsNumeralText(shown);
    var t := shown + rest;
    NumeralPrefixStops(shown, rest);
    assert t[..|shown|] == shown && t[|shown|..] == rest;
    assert IsNumeral(t[0]);
  }

  lemma {:induction false} ParseQuoted(s: Text, rest: Text)
    ensures ParseString(Quote(s) + rest) == Some((s, rest))
  {
    var t := Quote(s) + rest;
    assert t[1..] == EscapeAll(s) + [QUOTE] + rest;
    ParseEscaped(s, rest);
  }

  lemma {:induction false} ParseLiterals(rest: Text, n: Numerals)
    ensures Parse(NULL_TEXT + rest, n) == Some((JNull, rest))
    ensures Parse(TRUE_TEXT + rest, n) == Some((JBool(true), rest))
    ensures Parse(FALSE_TEXT + rest, n) == Some((JBool(false), rest))
  {
    assert (NULL_TEXT + rest)[..4] == NULL_TEXT && (NULL_TEXT + rest)[4..] == rest;
    assert (TRUE_TEXT + rest)[..4] == TRUE_TEXT && (TRUE_TEXT + rest)[4..] == rest;
    assert (FALSE_TEXT + rest)[..5] == FALSE_TEXT && (FALSE_TEXT + rest)[5..] == rest;
    assert (TRUE_TEXT + rest)[0] == 0x74 && (FALSE_TEXT + rest)[0] == 0x66;
    assert NULL_TEXT[0] == 0x6E;
  }

  /** A printed value never starts like the end of an array or object. */
  lemma {:induction false} PrintStarts(j: Json, n: Numerals)
    requires ValidNumerals(n)
    ensures |Print(j, n)| > 0 && Print(j, n)[0] != CLOSE_BRACKET
  {
    if j.JNumber? { assert IsNumeralText(n.show(j.r)); }
  }

  /** Reading a printed value gives the value and leaves the rest. */
  lemma {:induction false} ParsePrint(j: Json, rest: Text, n: Numerals)
    requires ValidNumerals(n) && Stops(rest)
    ensures Parse(Print(j, n) + rest, n) == Some((j, rest))
    decreases j, 1
  {
    match j
    case JNull => ParseLiterals(rest, n);
    case JBool(b) => ParseLiterals(rest, n);
    case JString(s) => ParseQuoted(s, rest);
    case JNumber(r) => ParseNumber(r, rest, n);
    case JArray(items) => ParsePrintArray(items, rest, n);
    case JObject(members) => ParsePrintObject(members, rest, n);
  }

  lemma {:induction false} ParsePrintArray(items: seq<Json>, rest: Text, n: Numerals)
    requires ValidNumerals(n)
    ensures Parse(Print(JArray(items), n) + rest, n) == Some((JArray(items), rest))
    decreases items, 2
  {
    hide ParseItems;
    var t := [OPEN_BRACKET] + PrintItems(items, n) + [CLOSE_BRACKET] + rest;
    assert t[1..] == PrintItems(items, n) + [CLOSE_BRACKET] + rest;
    if items == [] {
      assert t[1..][1..] == rest;
    } else {
      ParsePrintItems(items, rest, n);
      PrintStarts(items[0], n);
      assert t[1] == Print(items[0], n)[0];
    }
  }

  lemma {:induction false} ParsePrintItems(items: seq<Json>, rest: Text, n: Numerals)
    requires ValidNumerals(n) && items != []
    ensures ParseItems(PrintItems(items, n) + [CLOSE_BRACKET] + rest, n) == Some((items, rest))
    decreases items, 1
  {
    hide Parse, Print, ParseMember, PrintMember;
    var t := PrintItems(items, n) + [CLOSE_BRACKET] + rest;
    if |items| == 1 {
      var tail := [CLOSE_BRACKET] + rest;
      ParsePrint(items[0], tail, n);
      assert t == Print(items[0], n) + tail;
      assert tail[1..] == rest && items == [items[0]];
    } else {
      var tail := [COMMA] + (PrintItems(items[1..], n) + [CLOSE_BRACKET] + rest);
      ParsePrint(items[0], tail, n);
      assert t == Print(items[0], n) + tail;
      assert tail[1..] == PrintItems(items[1..], n) + [CLOSE_BRACKET] + rest;
      ParsePrintItems(items[1..], rest, n);
      assert items == [items[0]] + items[1..];
    }
  }

  lemma {:induction false} ParsePrintMember(m: Member, rest: Text, n: Numerals)
    requires ValidNumerals(n) && Stops(rest)
    ensures ParseMember(PrintMember(m, n) + rest, n) == Some((m, rest))
    decreases m, 1
  {
    hide Parse, Print, Quote, ParseString;
    var tail := [COLON] + (Print(m.value, n) + rest);
    assert PrintMember(m, n) + rest == Quote(m.key) + tail;
    ParseQuoted(m.key, tail);
    assert tail[1..] == Print(m.value, n) + rest;
    ParsePrint(m.value, rest, n);
  }

  lemma {:induction false} ParsePrintObject(members: seq<Member>, rest: Text, n: Numerals)
    requires ValidNumerals(n)
    ensures Parse(Print(JObject(members), n) + rest, n) == Some((JObject(members), rest))
    decreases members, 3
  {
    hide ParseMembers;
    var t := [OPEN_BRACE] + PrintMembers(members, n) + [CLOSE_BRACE] + rest;
    assert t[1..] == PrintMembers(members, n) + [CLOSE_BRACE] + rest;
    if members == [] {
      assert t[1..][1..] == rest;
    } else {
      ParsePrintMembers(members, rest, n);
      assert t[1] == PrintMember(members[0], n)[0] == QUOTE;
    }
  }

  lemma {:induction false} ParsePrintMembers(members: seq<Member>, rest: Text, n: Numerals)
    requires ValidNumerals(n) && members != []
    ensures ParseMembers(PrintMembers(members, n) + [CLOSE_BRACE] + rest, n) == Some((members, rest))
    decreases members, 2
  {
    hide Parse, Print, ParseMember, PrintMember;
    var t := PrintMembers(members, n) + [CLOSE_BRACE] + rest;
    if |members| == 1 {
      var tail := [CLOSE_BRACE] + rest;
      ParsePrintMember(members[0], tail, n);
      assert t == PrintMember(members[0], n) + tail;
      assert tail[1..] == rest && members == [members[0]];
    } else {
      var tail := [COMMA] + (PrintMembers(members[1..], n) + [CLOSE_BRACE] + rest);
      ParsePrintMember(members[0], tail, n);
      assert t == PrintMember(members[0], n) + tail;
      assert tail[1..] == PrintMembers(members[1..], n) + [CLOSE_BRACE] + rest;
      ParsePrintMembers(members[1..], rest, n);
      assert members == [members[0]] + members[1..];
    }
  }

  /** Printing loses nothing: the text determines the canonical value. */
  lemma {:induction false} PrintInjective(j: Json, k: Json, n: Numerals)
    requires ValidNumerals(n) && Print(j, n) == Print(k, n)
    ensures j == k
  {
    ParsePrint(j, [], n);
    ParsePrint(k, [], n);
    assert Print(j, n) + [] == Print(k, n) + [];
  }

  /** The words and the punctuation. */
  lemma {:induction false} Words(n: Numerals)
    ensures Print(JNull, n) == Units("null") && Print(JBool(true), n) == Units("true") && Print(JBool(false), n) == Units("false")
    ensures Print(JArray([]), n) == Units("[]") && Print(JObject([]), n) == Units("{}")
  {
  }

  lemma {:induction false} ArrayPunctuation(n: Numerals, x: Json, y: Json)
    ensures Print(JArray([x, y]), n) == Units("[") + (Print(x, n) + Units(",") + Print(y, n)) + Units("]")
  {
    hide PrintItems;
    PunctuatedList(n, x, y);
    assert Units("[") == [OPEN_BRACKET] && Units("]") == [CLOSE_BRACKET] && Units(",") == [COMMA];
  }

  lemma {:induction false} ObjectPunctuation(n: Numerals, l: Member, m: Member)
    ensures Print(JObject([l, m]), n) == Units("{") + (PrintMember(l, n) + Units(",") + PrintMember(m, n)) + Units("}")
  {
    hide PrintMembers, PrintMember;
    PunctuatedMembers(n, l, m);
    assert Units("{") == [OPEN_BRACE] && Units("}") == [CLOSE_BRACE] && Units(",") == [COMMA];
  }

  lemma {:induction false} MemberPunctuation(n: Numerals, m: Member)
    ensures PrintMember(m, n) == Quote(m.key) + Units(":") + Print(m.value, n)
  {
    hide Quote, Print;
    assert Units(":") == [COLON];
  }

  lemma {:induction false} PunctuatedList(n: Numerals, x: Json, y: Json)
    ensures PrintItems([x, y], n) == Print(x, n) + [COMMA] + Print(y, n)
  {
    hide Print;
    assert [x, y][1..] == [y];
  }

  lemma {:induction false} PunctuatedMembers(n: Numerals, l: Member, m: Member)
    ensures PrintMembers([l, m], n) == PrintMember(l, n) + [COMMA] + PrintMember(m, n)
  {
    hide PrintMember;
    assert [l, m][1..] == [m];
  }
}
