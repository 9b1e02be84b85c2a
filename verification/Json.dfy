/**
 A JSON value. Strings are sequences of bytes, modelled as characters; an object is a map, as in the source, so
 the order in which fields came in is no part of it. A real is an exact real number or one that is not finite.
 */
module Json {

  datatype Value =
    | Null
    | Bool(flag: bool)
    | Int(number: int)
    | Real(decimal: real)
    | NotFinite
    | Str(text: string)
    | Arr(items: seq<Value>)
    | Obj(fields: map<string, Value>)

  const MIN_INT64: int := -0x8000_0000_0000_0000
  const MAX_INT64: int := 0x7FFF_FFFF_FFFF_FFFF

  predicate FitsInt64(n: int) {
    MIN_INT64 <= n <= MAX_INT64
  }

  predicate IsNumber(v: Value) {
    v.Int? || v.Real? || v.NotFinite?
  }

  /** What a value can hold in the source: integers of 64 bits. */
  predicate Valid(v: Value) {
    match v
    case Int(n) => FitsInt64(n)
    case Arr(items) => forall i | 0 <= i < |items| :: Valid(items[i])
    case Obj(fields) => forall k | k in fields :: Valid(fields[k])
    case _ => true
  }

  predicate Finite(v: Value) {
    match v
    case NotFinite => false
    case Arr(items) => forall i | 0 <= i < |items| :: Finite(items[i])
    case Obj(fields) => forall k | k in fields :: Finite(fields[k])
    case _ => true
  }

  const MAX_DEPTH: nat := 64

  /** `v`, found at this depth, nests no deeper than the parser goes. */
  predicate Shallow(v: Value, depth: nat) {
    && depth <= MAX_DEPTH
    && match v
       case Arr(items) => forall i | 0 <= i < |items| :: Shallow(items[i], depth + 1)
       case Obj(fields) => forall k | k in fields :: Shallow(fields[k], depth + 1)
       case _ => true
  }

  const MICRO: real := 1000000.0

  /** The nearest whole number, ties to even: how a formatted decimal is rounded. */
  function Nearest(x: real): int {
    var low := x.Floor;
    if x - low as real < 0.5 then low
    else if x - low as real > 0.5 then low + 1
    else if low % 2 == 0 then low
    else low + 1
  }

  function Micros(x: real): int {
    Nearest(x * MICRO)
  }

  /** The real that six decimals keep of `x`. */
  function Kept(x: real): real {
    Micros(x) as real / MICRO
  }

  /** `v` with every real cut to six decimals. */
  function Rounded(v: Value): Value {
    match v
    case Real(x) => Real(Kept(x))
    case Arr(items) => Arr(seq(|items|, i requires 0 <= i < |items| => Rounded(items[i])))
    case Obj(fields) => Obj(map k | k in fields :: Rounded(fields[k]))
    case _ => v
  }

  /** Every real is a whole number of millionths. */
  predicate FixedPoint(v: Value) {
    match v
    case Real(x) => Kept(x) == x
    case Arr(items) => forall i | 0 <= i < |items| :: FixedPoint(items[i])
    case Obj(fields) => forall k | k in fields :: FixedPoint(fields[k])
    case _ => true
  }

  lemma {:induction false} RoundedKeeps(v: Value)
    ensures Rounded(v) == v <==> FixedPoint(v)
  {
    match v {
      case Arr(items) =>
        forall i | 0 <= i < |items| ensures Rounded(items[i]) == items[i] <==> FixedPoint(items[i]) {
          RoundedKeeps(items[i]);
        }
        if FixedPoint(v) {
          assert Rounded(v).items == items;
        } else {
          var i :| 0 <= i < |items| && !FixedPoint(items[i]);
          assert Rounded(v).items[i] != items[i];
        }
      case Obj(fields) =>
        forall k | k in fields ensures Rounded(fields[k]) == fields[k] <==> FixedPoint(fields[k]) {
          RoundedKeeps(fields[k]);
        }
        if FixedPoint(v) {
          assert Rounded(v).fields == fields;
        } else {
          var k :| k in fields && !FixedPoint(fields[k]);
          assert Rounded(v).fields[k] != fields[k];
        }
      case _ =>
    }
  }

  lemma MicrosOfWhole(m: int)
    ensures Micros(m as real / MICRO) == m
  {
    assert m as real / MICRO * MICRO == m as real;
  }

  lemma {:induction false} RoundedIsFixedPoint(v: Value)
    ensures FixedPoint(Rounded(v))
  {
    match v {
      case Real(x) => MicrosOfWhole(Micros(x));
      case Arr(items) =>
        forall i | 0 <= i < |items| ensures FixedPoint(Rounded(items[i])) {
          RoundedIsFixedPoint(items[i]);
        }
      case Obj(fields) =>
        forall k | k in fields ensures FixedPoint(Rounded(fields[k])) {
          RoundedIsFixedPoint(fields[k]);
        }
      case _ =>
    }
  }
}
