/**
 Decimal numbers in the file: how integers and six-decimal reals are spelled, and how any spelling is read.
 How a number is written decides its type.
 */
module JsonNumbers {
  import opened Json
  import opened Options

  predicate IsDigit(c: char) {
    '0' <= c <= '9'
  }

  function DigitOf(d: nat): (c: char)
    requires d < 10
    ensures IsDigit(c)
  {
    "0123456789"[d]
  }

  function DigitValue(c: char): (d: nat)
    requires IsDigit(c)
    ensures d < 10 && DigitOf(d) == c
  {
    if c == '0' then 0 else if c == '1' then 1 else if c == '2' then 2 else if c == '3' then 3
    else if c == '4' then 4 else if c == '5' then 5 else if c == '6' then 6 else if c == '7' then 7
    else if c == '8' then 8 else 9
  }

  predicate AllDigits(s: string) {
    forall i | 0 <= i < |s| :: IsDigit(s[i])
  }

  function NatOf(s: string): nat
    requires AllDigits(s)
  {
    if s == [] then 0 else NatOf(s[..|s| - 1]) * 10 + DigitValue(s[|s| - 1])
  }

  function Decimal(n: nat): (s: string)
    ensures s != [] && AllDigits(s)
  {
    if n < 10 then [DigitOf(n)] else Decimal(n / 10) + [DigitOf(n % 10)]
  }

  /** The low `width` digits of `n`, with leading zeros. */
  function Padded(n: nat, width: nat): (s: string)
    ensures |s| == width && AllDigits(s)
  {
    if width == 0 then [] else Padded(n / 10, width - 1) + [DigitOf(n % 10)]
  }

  function IntText(n: int): string {
    if n < 0 then "-" + Decimal(-n) else Decimal(n)
  }

  function Spelled(negative: bool, digits: string, fraction: string): string {
    (if negative then "-" else "") + digits + "." + fraction
  }

  function MicrosText(m: int): string {
    var a: nat := if m < 0 then -m else m;
    Spelled(m < 0, Decimal(a / 1000000), Padded(a % 1000000, 6))
  }

  const BUFFER: nat := 64
  const NUL: char := 0 as char

  /** What comes out of a buffer of 64 bytes: a text that does not leave room for its end is cut short, and a zero
      byte takes the place of the last that would fit. What may follow that byte is no part of the model. */
  function Buffered(text: string): string {
    if |text| < BUFFER then text else text[..BUFFER - 1] + [NUL]
  }

  /** Six decimals, never `-0.000000`, through the buffer. */
  function RealText(x: real): string {
    Buffered(MicrosText(Micros(x)))
  }

  /** The six decimals of `x` fit the buffer. */
  predicate ShortReal(x: real) {
    |MicrosText(Micros(x))| < BUFFER
  }

  /** Every real fits the buffer. */
  predicate Printable(v: Value) {
    match v
    case Real(x) => ShortReal(x)
    case Arr(items) => forall i | 0 <= i < |items| :: Printable(items[i])
    case Obj(fields) => forall k | k in fields :: Printable(fields[k])
    case _ => true
  }

  /** Found at this depth, `v` nests no deeper than the parser goes, and every real fits the buffer. */
  predicate Legible(v: Value, depth: nat) {
    && depth <= MAX_DEPTH
    && match v
       case Real(x) => ShortReal(x)
       case Arr(items) => forall i | 0 <= i < |items| :: Legible(items[i], depth + 1)
       case Obj(fields) => forall k | k in fields :: Legible(fields[k], depth + 1)
       case _ => true
  }

  lemma {:induction false} LegibleMeans(v: Value, depth: nat)
    ensures Legible(v, depth) <==> Shallow(v, depth) && Printable(v)
  {
    match v {
      case Arr(items) =>
        forall i | 0 <= i < |items|
          ensures Legible(items[i], depth + 1) <==> Shallow(items[i], depth + 1) && Printable(items[i])
        {
          LegibleMeans(items[i], depth + 1);
        }
      case Obj(fields) =>
        forall k | k in fields
          ensures Legible(fields[k], depth + 1) <==> Shallow(fields[k], depth + 1) && Printable(fields[k])
        {
          LegibleMeans(fields[k], depth + 1);
        }
      case _ =>
    }
  }

  // ----- reading ---------------------------------------------------------------------

  /** How many digits `s` begins with. */
  function DigitRun(s: string): (n: nat)
    ensures n <= |s| && AllDigits(s[..n]) && (n < |s| ==> !IsDigit(s[n]))
  {
    if s == [] || !IsDigit(s[0]) then 0
    else
      var n := 1 + DigitRun(s[1..]);
      assert forall i | 0 <= i < n :: s[..n][i] == if i == 0 then s[0] else s[1..][i - 1];
      n
  }

  function Pow10(k: nat): (p: nat)
    ensures 0 < p
  {
    if k == 0 then 1 else 10 * Pow10(k - 1)
  }

  /** A number token taken apart: sign, digits, fraction, exponent, each perhaps not there. */
  datatype Token = Token(negative: bool, digits: string, point: bool, fraction: string, marked: bool,
                         exponentNegative: bool, exponent: string)

  predicate Digital(t: Token) {
    AllDigits(t.digits) && AllDigits(t.fraction) && AllDigits(t.exponent)
  }

  /** Takes as many characters as a number can have, whether or not they make one. */
  function ScanSign(s: string): (bool, string) {
    if s != [] && s[0] == '-' then (true, s[1..]) else (false, s)
  }

  function ScanFraction(s: string): (r: (bool, string, string))
    ensures AllDigits(r.1)
    ensures |r.2| <= |s|
  {
    if s != [] && s[0] == '.' then
      var n := DigitRun(s[1..]);
      (true, s[1..][..n], s[1..][n..])
    else (false, "", s)
  }

  function ScanExponent(s: string): (r: (bool, bool, string, string))
    ensures AllDigits(r.2)
    ensures |r.3| <= |s|
  {
    if s != [] && (s[0] == 'e' || s[0] == 'E') then
      var t := s[1..];
      var signed := t != [] && (t[0] == '+' || t[0] == '-');
      var u := if signed then t[1..] else t;
      var n := DigitRun(u);
      (true, signed && t[0] == '-', u[..n], u[n..])
    else (false, false, "", s)
  }

  function ScanNumber(s: string): (r: (Token, string))
    ensures Digital(r.0)
    ensures |r.1| <= |s|
  {
    var (negative, s1) := ScanSign(s);
    var n := DigitRun(s1);
    var (point, fraction, s2) := ScanFraction(s1[n..]);
    var (marked, exponentNegative, exponent, s3) := ScanExponent(s2);
    (Token(negative, s1[..n], point, fraction, marked, exponentNegative, exponent), s3)
  }

  function Signed(negative: bool, x: real): real {
    if negative then -x else x
  }

  function Mixed(whole: nat, part: nat, parts: nat): real
    requires 0 < parts
  {
    whole as real + part as real / parts as real
  }

  function Mantissa(t: Token): real
    requires Digital(t)
  {
    Mixed(NatOf(t.digits), NatOf(t.fraction), Pow10(|t.fraction|))
  }

  function Shifted(x: real, power: real, down: bool): real
    requires 0.0 < power
  {
    if down then x / power else x * power
  }

  function DecimalValue(t: Token): real
    requires Digital(t)
  {
    Signed(t.negative, Shifted(Mantissa(t), Pow10(NatOf(t.exponent)) as real, t.exponentNegative))
  }

  /** What a token means: an integer when it is spelled as one and fits, otherwise a real, if it is a number. */
  function NumberValue(t: Token): (v: Option<Value>)
    requires Digital(t)
    ensures v.Some? ==> (v.value.Int? && FitsInt64(v.value.number)) || v.value.Real?
  {
    if t.digits == [] && !t.point && !t.marked then None
    else if !t.point && !t.marked && FitsInt64(SignedInt(t)) then Some(Int(SignedInt(t)))
    else if t.digits == [] && t.fraction == [] then None
    else if t.marked && t.exponent == [] then None
    else Some(Real(DecimalValue(t)))
  }

  /** The number `s` begins with, if it does, and what is left. */
  function ReadNumber(s: string): (r: (Option<Value>, string))
    ensures |r.1| <= |s|
  {
    (NumberValue(ScanNumber(s).0), ScanNumber(s).1)
  }

  function SignedInt(t: Token): int
    requires Digital(t)
  {
    var n: int := NatOf(t.digits);
    if t.negative then -n else n
  }

  // ----- a spelling is read back as what was spelled ------------------------------------------

  /** What may follow a number without being taken for part of it. */
  predicate EndsNumber(tail: string) {
    tail == [] || !(IsDigit(tail[0]) || tail[0] in {'.', 'e', 'E', '+', '-'})
  }

  lemma {:induction false} NatOfDecimal(n: nat)
    ensures NatOf(Decimal(n)) == n
  {
    if n >= 10 {
      NatOfDecimal(n / 10);
      var s := Decimal(n);
      assert s[..|s| - 1] == Decimal(n / 10);
    } else {
      assert Decimal(n)[..0] == [];
    }
  }

  lemma {:induction false} NatOfPadded(n: nat, width: nat)
    requires n < Pow10(width)
    ensures NatOf(Padded(n, width)) == n
    decreases width
  {
    if width > 0 {
      NatOfPadded(n / 10, width - 1);
      var s := Padded(n, width);
      assert s[..|s| - 1] == Padded(n / 10, width - 1);
    }
  }

  lemma {:induction false} DigitRunIs(ds: string, tail: string)
    requires AllDigits(ds) && (tail == [] || !IsDigit(tail[0]))
    ensures DigitRun(ds + tail) == |ds|
    ensures (ds + tail)[..|ds|] == ds && (ds + tail)[|ds|..] == tail
  {
    if ds == [] {
      assert ds + tail == tail;
    } else {
      DigitRunIs(ds[1..], tail);
      assert (ds + tail)[1..] == ds[1..] + tail;
    }
  }

  lemma {:induction false} ScanInt(n: int, tail: string)
    requires EndsNumber(tail)
    ensures ScanNumber(IntText(n) + tail) ==
            (Token(n < 0, Decimal(if n < 0 then -n else n), false, "", false, false, ""), tail)
  {
    var ds := Decimal(if n < 0 then -n else n);
    var s := IntText(n) + tail;
    if n < 0 {
      assert s == ['-'] + (ds + tail);
    }
    assert ScanSign(s) == (n < 0, ds + tail);
    DigitRunIs(ds, tail);
  }

  lemma {:induction false} ScanAfterSign(negative: bool, s: string)
    requires s == [] || s[0] != '-'
    ensures ScanSign((if negative then "-" else "") + s) == (negative, s)
  {
    if negative {
      assert ("-" + s)[1..] == s;
    } else {
      assert "" + s == s;
    }
  }

  lemma {:induction false} ScanFractionIs(fraction: string, tail: string)
    requires AllDigits(fraction) && EndsNumber(tail)
    ensures ScanFraction("." + (fraction + tail)) == (true, fraction, tail)
  {
    assert ("." + (fraction + tail))[1..] == fraction + tail;
    DigitRunIs(fraction, tail);
  }

  lemma NoExponent(tail: string)
    requires EndsNumber(tail)
    ensures ScanExponent(tail) == (false, false, "", tail)
  {
  }

  lemma {:induction false} ScanReal(negative: bool, ds: string, fraction: string, tail: string)
    requires AllDigits(ds) && ds != [] && AllDigits(fraction) && EndsNumber(tail)
    ensures ScanNumber(Spelled(negative, ds, fraction) + tail) ==
            (Token(negative, ds, true, fraction, false, false, ""), tail)
  {
    var rest := "." + (fraction + tail);
    var sign := if negative then "-" else "";
    assert Spelled(negative, ds, fraction) + tail == sign + (ds + rest);
    assert ScanSign(sign + (ds + rest)) == (negative, ds + rest) by { ScanAfterSign(negative, ds + rest); }
    assert DigitRun(ds + rest) == |ds| && (ds + rest)[..|ds|] == ds && (ds + rest)[|ds|..] == rest by {
      DigitRunIs(ds, rest);
    }
    ScanFractionIs(fraction, tail);
    NoExponent(tail);
  }

  /** An integer of 64 bits is read back as itself, and as an integer. */
  lemma {:induction false} IntReadsBack(n: int, tail: string)
    requires FitsInt64(n) && EndsNumber(tail)
    ensures ReadNumber(IntText(n) + tail) == (Some(Int(n)), tail)
  {
    ScanInt(n, tail);
    NatOfDecimal(if n < 0 then -n else n);
  }

  lemma {:induction false} SpelledValue(negative: bool, a: nat) returns (t: Token)
    ensures t == Token(negative, Decimal(a / 1000000), true, Padded(a % 1000000, 6), false, false, "")
    ensures NumberValue(t) == Some(Real(Signed(negative, a as real / MICRO)))
  {
    t := Token(negative, Decimal(a / 1000000), true, Padded(a % 1000000, 6), false, false, "");
    SixDigits();
    NatOfDecimal(a / 1000000);
    NatOfPadded(a % 1000000, 6);
    DecimalOfToken(t, a / 1000000, a % 1000000);
    assert a == a / 1000000 * 1000000 + a % 1000000;
  }

  lemma {:induction false} MicrosReadBack(m: int, tail: string)
    requires EndsNumber(tail)
    ensures ReadNumber(MicrosText(m) + tail) == (Some(Real(m as real / MICRO)), tail)
  {
    var a: nat := if m < 0 then -m else m;
    var t := SpelledValue(m < 0, a);
    assert MicrosText(m) == Spelled(m < 0, t.digits, t.fraction);
    SpelledReads(m < 0, t.digits, t.fraction, t, tail);
    SignedMicros(m, a);
  }

  lemma SignedMicros(m: int, a: nat)
    requires a == if m < 0 then -m else m
    ensures Signed(m < 0, a as real / MICRO) == m as real / MICRO
  {
  }

  lemma {:induction false} SpelledReads(negative: bool, ds: string, fraction: string, t: Token, tail: string)
    requires AllDigits(ds) && ds != [] && AllDigits(fraction) && EndsNumber(tail)
    requires t == Token(negative, ds, true, fraction, false, false, "")
    ensures ReadNumber(Spelled(negative, ds, fraction) + tail) == (NumberValue(t), tail)
  {
    ScanReal(negative, ds, fraction, tail);
  }

  /** A real that fits the buffer is read back as what six decimals keep of it, and as a real. */
  lemma {:induction false} RealReadsBack(x: real, tail: string)
    requires EndsNumber(tail) && ShortReal(x)
    ensures ReadNumber(RealText(x) + tail) == (Some(Real(Kept(x))), tail)
  {
    MicrosReadBack(Micros(x), tail);
  }

  lemma SixDigits()
    ensures Pow10(6) == 1000000 && Pow10(0) == 1
  {
    assert Pow10(3) == 1000;
  }

  lemma DecimalOfToken(t: Token, whole: nat, part: nat)
    requires Digital(t) && t.exponent == "" && !t.exponentNegative && |t.fraction| == 6
    requires NatOf(t.digits) == whole && NatOf(t.fraction) == part
    ensures DecimalValue(t) == Signed(t.negative, (whole * 1000000 + part) as real / MICRO)
  {
    SixDigits();
    var x := NatOf(t.digits) as real + NatOf(t.fraction) as real / Pow10(|t.fraction|) as real;
    assert x == (whole * 1000000 + part) as real / MICRO;
    assert NatOf(t.exponent) == 0;
  }

  // ----- reals too long for the buffer ----------------------------------------------------------

  lemma {:induction false} DecimalLength(n: nat, k: nat)
    requires 0 < k
    ensures |Decimal(n)| <= k <==> n < Pow10(k)
  {
    if n < 10 {
      assert Pow10(k) == 10 * Pow10(k - 1);
    } else if k == 1 {
      assert Pow10(1) == 10 * Pow10(0);
    } else {
      DecimalLength(n / 10, k - 1);
    }
  }

  lemma {:induction false} MillionTimes(k: nat)
    ensures Pow10(k + 6) == 1000000 * Pow10(k)
  {
    assert Pow10(k + 6) == 10 * Pow10(k + 5);
    assert Pow10(k + 5) == 10 * Pow10(k + 4);
    assert Pow10(k + 4) == 10 * Pow10(k + 3);
    assert Pow10(k + 3) == 10 * Pow10(k + 2);
    assert Pow10(k + 2) == 10 * Pow10(k + 1);
  }

  lemma MicrosLength(m: int)
    ensures var a: nat := if m < 0 then -m else m;
      |MicrosText(m)| == (if m < 0 then 8 else 7) + |Decimal(a / 1000000)|
  {
  }

  lemma Millions(a: nat, p: nat)
    ensures a / 1000000 < p <==> a < 1000000 * p
  {
  }

  /** A real fits the buffer exactly between -10^55 and 10^56, as far as six decimals tell. */
  lemma {:induction false} ShortRealIff(x: real)
    ensures ShortReal(x) <==> -Micros(x) < Pow10(61) && Micros(x) < Pow10(62)
  {
    var m := Micros(x);
    var a: nat := if m < 0 then -m else m;
    var k := if m < 0 then 55 else 56;
    MicrosLength(m);
    DecimalLength(a / 1000000, k);
    Millions(a, Pow10(k));
    MillionTimes(k);
  }

  lemma {:induction false} ScanDigits(negative: bool, ds: string, tail: string)
    requires AllDigits(ds) && ds != [] && EndsNumber(tail)
    ensures ScanNumber((if negative then "-" else "") + ds + tail).1 == tail
  {
    var sign := if negative then "-" else "";
    assert sign + ds + tail == sign + (ds + tail);
    ScanAfterSign(negative, ds + tail);
    DigitRunIs(ds, tail);
  }

  /** However a spelling is cut short after its first two characters, the reader stops where it was cut. */
  lemma {:induction false} CutStops(negative: bool, ds: string, fraction: string, n: nat, tail: string)
    requires AllDigits(ds) && ds != [] && AllDigits(fraction) && EndsNumber(tail)
    requires 2 <= n <= |Spelled(negative, ds, fraction)|
    ensures ReadNumber(Spelled(negative, ds, fraction)[..n] + tail).1 == tail
  {
    var sign := if negative then "-" else "";
    var text := Spelled(negative, ds, fraction);
    var front := |sign| + |ds|;
    if n <= front {
      assert text[..n] == sign + ds[..n - |sign|];
      ScanDigits(negative, ds[..n - |sign|], tail);
    } else {
      assert text[..n] == Spelled(negative, ds, fraction[..n - front - 1]);
      ScanReal(negative, ds, fraction[..n - front - 1], tail);
    }
  }

  /** A real that does not fit the buffer is not read past the zero byte, whatever follows. */
  lemma {:induction false} LongRealStops(x: real, tail: string)
    requires !ShortReal(x)
    ensures ReadNumber(RealText(x) + tail).1 == [NUL] + tail
  {
    var m := Micros(x);
    var a: nat := if m < 0 then -m else m;
    CutStops(m < 0, Decimal(a / 1000000), Padded(a % 1000000, 6), BUFFER - 1, [NUL] + tail);
    LongRealText(x, tail);
  }

  lemma {:induction false} LongRealText(x: real, tail: string)
    requires !ShortReal(x)
    ensures RealText(x) + tail == MicrosText(Micros(x))[..BUFFER - 1] + ([NUL] + tail)
  {
  }
}
