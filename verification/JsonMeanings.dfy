/**
 What the reader makes of spellings the writer never uses: every escape, surrogate pairs, exponents, and a key that
 comes twice.
 */
module JsonMeanings {
  import opened Options
  import opened Json
  import opened JsonNumbers
  import opened JsonText
  import opened JsonGrammar
  import opened JsonRoundTrip

  // ----- escapes --------------------------------------------------------------------------------

  /** The escapes of one letter, by section 7 of RFC 8259, and the bytes they stand for. */
  function Escapes(): map<char, nat> {
    map['"' := 0x22, '\\' := 0x5C, '/' := 0x2F, 'b' := 0x08, 'f' := 0x0C, 'n' := 0x0A, 'r' := 0x0D, 't' := 0x09]
  }

  /** Each of them is read as its byte; after any other character but `u` nothing is read. */
  lemma LetterReads(c: char, tail: string)
    requires c != 'u'
    ensures ReadEscape([c] + tail) ==
            if c in Escapes() then Parsed([Escapes()[c] as char], tail) else Failed(tail)
  {
    assert ([c] + tail)[1..] == tail;
  }

  /** A hex digit of either case, by its ASCII code. */
  predicate IsHex(c: char, d: nat) {
    if d < 10 then c as int == 48 + d else d < 16 && (c as int == 65 + d - 10 || c as int == 97 + d - 10)
  }

  lemma HexMeans(c: char)
    ensures forall d: nat :: HexValue(c) == Some(d) <==> IsHex(c, d)
  {
  }

  /** Four of them spell a number, the first counting most. */
  lemma {:induction false} FourMean(s: string, a: nat, b: nat, c: nat, d: nat)
    requires 4 <= |s| && IsHex(s[0], a) && IsHex(s[1], b) && IsHex(s[2], c) && IsHex(s[3], d)
    ensures Hex4(s) == Some(a * 4096 + b * 256 + c * 16 + d)
  {
    HexMeans(s[0]);
    HexMeans(s[1]);
    HexMeans(s[2]);
    HexMeans(s[3]);
  }

  lemma {:induction false} FourOrNone(s: string)
    ensures Hex4(s).Some? <==> 4 <= |s| && forall i | 0 <= i < 4 :: exists d: nat :: IsHex(s[i], d)
  {
    if 4 <= |s| {
      HexMeans(s[0]);
      HexMeans(s[1]);
      HexMeans(s[2]);
      HexMeans(s[3]);
    }
  }

  /** The bytes of a code point, by section 3 of RFC 3629: as few as it takes, six bits in each after the first. */
  predicate Encodes(bytes: string, code: nat) {
    match |bytes|
    case 1 => code < 0x80 && bytes[0] as nat == code
    case 2 =>
      && 0x80 <= code && 0xC0 <= bytes[0] as nat < 0xE0 && Continues(bytes[1])
      && code == (bytes[0] as nat - 0xC0) * 64 + (bytes[1] as nat - 0x80)
    case 3 =>
      && 0x800 <= code && 0xE0 <= bytes[0] as nat < 0xF0 && Continues(bytes[1]) && Continues(bytes[2])
      && code == (bytes[0] as nat - 0xE0) * 4096 + (bytes[1] as nat - 0x80) * 64 + (bytes[2] as nat - 0x80)
    case 4 =>
      && 0x10000 <= code && 0xF0 <= bytes[0] as nat < 0xF8
      && Continues(bytes[1]) && Continues(bytes[2]) && Continues(bytes[3])
      && code == (bytes[0] as nat - 0xF0) * 262144 + (bytes[1] as nat - 0x80) * 4096 + (bytes[2] as nat - 0x80) * 64
                 + (bytes[3] as nat - 0x80)
    case _ => false
  }

  predicate Continues(c: char) {
    0x80 <= c as nat < 0xC0
  }

  lemma Utf8Means(code: nat)
    requires code < 0x110000
    ensures Encodes(Utf8(code), code)
  {
    SixBits(code);
    SixBits(code / 64);
    SixBits(code / 4096);
    if code < 0x800 {
    } else if code < 0x10000 {
      assert |Utf8(code)| == 3;
    } else {
      assert |Utf8(code)| == 4;
    }
  }

  lemma SixBits(n: nat)
    ensures n == n / 64 * 64 + n % 64 && 0 <= n % 64 < 64 && n / 64 / 64 == n / 4096 && n / 4096 / 64 == n / 262144
  {
  }

  lemma AfterU(digits: string, tail: string)
    requires |digits| == 4
    ensures ("u" + digits + tail)[1..] == digits + tail && (digits + tail)[4..] == tail
  {
  }

  lemma SameHex(digits: string, tail: string)
    requires |digits| == 4
    ensures Hex4(digits + tail) == Hex4(digits)
  {
  }

  /** Two in a row that are the halves of a pair are the one code point beyond 16 bits. */
  lemma {:induction false} PairReads(high: string, low: string, code: nat, tail: string)
    requires |high| == |low| == 4 && 0x10000 <= code < 0x110000
    requires Hex4(high) == Some(0xD800 + (code - 0x10000) / 0x400) && Hex4(low) == Some(0xDC00 + (code - 0x10000) % 0x400)
    ensures ReadEscape("u" + high + ("\\u" + low + tail)) == Parsed(Utf8(code), tail)
  {
    var rest := "\\u" + low + tail;
    AfterU(high, rest);
    SameHex(high, rest);
    assert rest[2..] == low + tail && (low + tail)[4..] == tail;
    SameHex(low, tail);
  }

  // ----- numbers --------------------------------------------------------------------------------

  /** A number in any spelling: with or without a fraction, with or without an exponent of either mark and sign. */
  function NumberText(t: Token, mark: char, plus: bool): string {
    (if t.negative then "-" else "")
    + (t.digits + ((if t.point then "." + t.fraction else "")
                   + (if t.marked then [mark] + (if t.exponentNegative then "-" else if plus then "+" else "") + t.exponent
                      else "")))
  }

  predicate Spells(t: Token, mark: char) {
    && Digital(t) && (t.digits != [] || t.point) && mark in {'e', 'E'}
    && (!t.point ==> t.fraction == []) && (!t.marked ==> t.exponent == [] && !t.exponentNegative)
  }

  lemma {:induction false} ExponentReads(negative: bool, plus: bool, mark: char, exponent: string, tail: string)
    requires mark in {'e', 'E'} && AllDigits(exponent) && EndsNumber(tail)
    ensures ScanExponent([mark] + (if negative then "-" else if plus then "+" else "") + exponent + tail) ==
            (true, negative, exponent, tail)
  {
    var sign := if negative then "-" else if plus then "+" else "";
    var s := [mark] + sign + exponent + tail;
    assert s[1..] == sign + (exponent + tail);
    if sign != "" {
      assert s[1..][1..] == exponent + tail;
    } else {
      assert s[1..] == exponent + tail;
    }
    DigitRunIs(exponent, tail);
  }

  function FractionText(t: Token): string {
    if t.point then "." + t.fraction else ""
  }

  function ExponentText(t: Token, mark: char, plus: bool): string {
    if t.marked then [mark] + (if t.exponentNegative then "-" else if plus then "+" else "") + t.exponent else ""
  }

  /** Taken apart it is what was spelled, up to where it ends. */
  lemma {:induction false} NumberScans(t: Token, mark: char, plus: bool, tail: string)
    requires Spells(t, mark) && EndsNumber(tail)
    ensures ScanNumber(NumberText(t, mark, plus) + tail) == (t, tail)
  {
    var e := ExponentText(t, mark, plus) + tail;
    var f := FractionText(t) + e;
    assert NumberText(t, mark, plus) + tail == (if t.negative then "-" else "") + (t.digits + f);
    assert ScanExponent(e) == (t.marked, t.exponentNegative, t.exponent, tail) by { ExponentScans(t, mark, plus, tail); }
    assert e == [] || !(IsDigit(e[0]) || e[0] == '.');
    assert ScanFraction(f) == (t.point, t.fraction, e) by { FractionScans(t.point, t.fraction, e); }
    assert f == [] || !IsDigit(f[0]);
    InParts(t, f, e, tail);
  }

  lemma {:induction false} ExponentScans(t: Token, mark: char, plus: bool, tail: string)
    requires Spells(t, mark) && EndsNumber(tail)
    ensures ScanExponent(ExponentText(t, mark, plus) + tail) == (t.marked, t.exponentNegative, t.exponent, tail)
  {
    if t.marked {
      ExponentReads(t.exponentNegative, plus, mark, t.exponent, tail);
    } else {
      assert "" + tail == tail;
    }
  }

  lemma {:induction false} InParts(t: Token, f: string, e: string, tail: string)
    requires Digital(t) && (f == [] || !IsDigit(f[0])) && (t.digits == [] ==> f != [] && f[0] == '.')
    requires ScanFraction(f) == (t.point, t.fraction, e)
    requires ScanExponent(e) == (t.marked, t.exponentNegative, t.exponent, tail)
    ensures ScanNumber((if t.negative then "-" else "") + (t.digits + f)) == (t, tail)
  {
    ScanAfterSign(t.negative, t.digits + f);
    DigitRunIs(t.digits, f);
  }

  lemma {:induction false} FractionScans(point: bool, fraction: string, rest: string)
    requires AllDigits(fraction) && (!point ==> fraction == []) && (rest == [] || !(IsDigit(rest[0]) || rest[0] == '.'))
    ensures ScanFraction((if point then "." + fraction else "") + rest) == (point, fraction, rest)
  {
    if point {
      assert ("." + fraction + rest)[1..] == fraction + rest;
      DigitRunIs(fraction, rest);
    } else {
      assert "" + rest == rest;
    }
  }

  lemma {:induction false} NatOfJoined(a: string, b: string)
    requires AllDigits(a) && AllDigits(b)
    ensures AllDigits(a + b) && NatOf(a + b) == NatOf(a) * Pow10(|b|) + NatOf(b)
  {
    if b == [] {
      assert a + b == a;
    } else {
      var n := |b| - 1;
      NatOfJoined(a, b[..n]);
      assert (a + b)[..|a + b| - 1] == a + b[..n] && (a + b)[|a + b| - 1] == b[n];
      OneMoreDigit(NatOf(a), Pow10(n), NatOf(b[..n]), DigitValue(b[n]));
    }
  }

  lemma OneMoreDigit(a: nat, p: nat, b: nat, d: nat)
    ensures (a * p + b) * 10 + d == a * (10 * p) + (b * 10 + d)
  {
  }

  /** `x` is `digits`, `places` down after the point, and times or by `power`. */
  predicate IsDecimal(x: real, digits: nat, places: nat, power: nat, down: bool) {
    if down then x * power as real * places as real == digits as real
    else x * places as real == digits as real * power as real
  }

  /** The value of a number: its digits as one number, the point's places down, and as many up or down as the exponent
      says. */
  lemma {:induction false} DecimalMeans(t: Token)
    requires Digital(t)
    ensures AllDigits(t.digits + t.fraction)
    ensures IsDecimal(if t.negative then -DecimalValue(t) else DecimalValue(t), NatOf(t.digits + t.fraction),
                      Pow10(|t.fraction|), Pow10(NatOf(t.exponent)), t.exponentNegative)
  {
    NatOfJoined(t.digits, t.fraction);
    var y := ShiftedMeans(NatOf(t.digits), NatOf(t.fraction), Pow10(|t.fraction|), Pow10(NatOf(t.exponent)),
                          NatOf(t.digits + t.fraction), t.exponentNegative);
    SignIs(t, y);
  }

  lemma ShiftedMeans(a: nat, b: nat, p: nat, e: nat, n: nat, down: bool) returns (y: real)
    requires 0 < p && 0 < e && n == a * p + b
    ensures y == Shifted(Mixed(a, b, p), e as real, down) && IsDecimal(y, n, p, e, down)
  {
    y := Shifted(Mixed(a, b, p), e as real, down);
    Places(a, b, p, n);
    Scaled(Mixed(a, b, p), p as real, e as real, n as real);
  }

  lemma SignIs(t: Token, y: real)
    requires Digital(t) && y == Shifted(Mantissa(t), Pow10(NatOf(t.exponent)) as real, t.exponentNegative)
    ensures y == if t.negative then -DecimalValue(t) else DecimalValue(t)
  {
  }

  lemma Places(a: nat, b: nat, p: nat, n: nat)
    requires 0 < p && n == a * p + b
    ensures Mixed(a, b, p) * p as real == n as real
  {
    assert b as real / p as real * p as real == b as real;
    assert a as real * p as real == (a * p) as real;
  }

  lemma Scaled(x: real, p: real, e: real, m: real)
    requires 0.0 < p && 0.0 < e && x * p == m
    ensures x / e * e * p == m && x * e * p == m * e
  {
    assert x / e * e == x;
    assert x * e * p == x * p * e;
  }

  /** There is no digit before or after the point, or none after the mark of an exponent. */
  predicate Blank(t: Token) {
    (t.digits == [] && t.fraction == []) || (t.marked && t.exponent == [])
  }

  /** So a number with a point or an exponent is read as a real of that value, if it has digits where it needs them. */
  lemma {:induction false} DecimalReads(t: Token, mark: char, plus: bool, tail: string)
    requires Spells(t, mark) && EndsNumber(tail) && (t.point || t.marked)
    ensures ReadNumber(NumberText(t, mark, plus) + tail) ==
            (if Blank(t) then None else Some(Real(DecimalValue(t))), tail)
  {
    NumberScans(t, mark, plus, tail);
  }

  // ----- a key that comes twice -----------------------------------------------------------------

  /** The last one counts. */
  lemma {:induction false} LastKeyCounts(key: string, s: string, v: Value, t: string, w: Value, depth: nat, tail: string)
    requires Reads(s, v, depth + 1) && Reads(t, w, depth + 1)
    ensures ReadFields(FieldText(key, s) + ("," + (FieldText(key, t) + ("}" + tail))), depth, map[]) ==
            Parsed(Obj(map[key := w]), tail)
  {
    var rest := FieldText(key, t) + ("}" + tail);
    FieldComma("", key, s, v, depth, map[], rest);
    FieldLast("", key, t, w, depth, map[key := v], "", tail);
    Unpadded(FieldText(key, s), "," + rest);
    Unpadded(FieldText(key, t), "}" + tail);
    assert map[key := v][key := w] == map[key := w];
  }

  lemma Unpadded(a: string, b: string)
    ensures "" + a + b == a + b && "" + b == b
  {
  }

  // ----- space and rounding ---------------------------------------------------------------------

  /** The four characters between tokens, by section 2 of RFC 8259. */
  lemma SpaceMeans(c: char)
    ensures IsSpace(c) <==> c as int in {0x20, 0x09, 0x0A, 0x0D}
  {
  }

  /** A real is written as the nearest number of millionths, the even one of two as near. */
  lemma NearestMeans(x: real)
    ensures var n := Micros(x);
      && n as real - 0.5 <= x * 1000000.0 <= n as real + 0.5
      && (x * 1000000.0 == n as real - 0.5 || x * 1000000.0 == n as real + 0.5 ==> n % 2 == 0)
  {
  }
}
