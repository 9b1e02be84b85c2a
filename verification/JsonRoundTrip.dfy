/**
 The round trip: the canonical text of a value is read back as that value, reals cut to six decimals, whatever
 keys are hoisted and whatever goes on one line; and it is read back at all exactly when it nests no deeper than
 the parser goes and its reals fit the buffer they are formatted in.
 */
module JsonRoundTrip {
  import opened Options
  import opened Json
  import opened JsonNumbers
  import opened JsonText
  import opened JsonGrammar

  // ----- strings ---------------------------------------------------------------------------

  lemma HexReadsBack(d: nat)
    requires d < 16
    ensures HexValue(HexDigit(d)) == Some(d)
  {
  }

  lemma {:induction false} MarkReadsBack(c: char, tail: string, read: string)
    requires c == '"' || c == '\\'
    ensures ReadString(['\\', c] + tail, read) == ReadString(tail, read + [c])
  {
    var s := ['\\', c] + tail;
    assert s[1..] == [c] + tail && s[1..][1..] == tail;
  }

  lemma {:induction false} PlainReadsBack(c: char, tail: string, read: string)
    requires c != '"' && c != '\\' && ' ' <= c
    ensures ReadString([c] + tail, read) == ReadString(tail, read + [c])
  {
    assert ([c] + tail)[1..] == tail;
  }

  lemma SplitEscape(digits: string, tail: string)
    ensures var s := "\\u" + digits + tail;
      s[0] == '\\' && s[1..] == "u" + (digits + tail) && ("u" + (digits + tail))[1..] == digits + tail
  {
  }

  lemma {:induction false} HexEscapeReadsBack(c: char, tail: string, read: string)
    requires c < ' '
    ensures ReadString(Escaped(c) + tail, read) == ReadString(tail, read + [c])
  {
    var digits := "00" + [HexDigit(c as int / 16), HexDigit(c as int % 16)];
    assert Escaped(c) == "\\u" + digits;
    SplitEscape(digits, tail);
    ControlReadsBack(c as nat, tail);
  }

  lemma {:induction false} EscapeReadsBack(c: char, tail: string, read: string)
    ensures ReadString(Escaped(c) + tail, read) == ReadString(tail, read + [c])
  {
    if c == '"' || c == '\\' {
      assert Escaped(c) == ['\\', c];
      MarkReadsBack(c, tail, read);
    } else if c < ' ' {
      HexEscapeReadsBack(c, tail, read);
    } else {
      PlainReadsBack(c, tail, read);
    }
  }

  lemma {:induction false} ControlReadsBack(code: nat, tail: string)
    requires code < 0x20
    ensures ReadUnicode("00" + [HexDigit(code / 16), HexDigit(code % 16)] + tail) == Parsed([code as char], tail)
  {
    var s := "00" + [HexDigit(code / 16), HexDigit(code % 16)] + tail;
    HexReadsBack(code / 16);
    HexReadsBack(code % 16);
    assert Hex4(s) == Some(code);
    assert s[4..] == tail;
  }

  lemma EscapedFront(x: string, tail: string)
    requires x != []
    ensures var n := |x| - 1; EscapedAll(x) + tail == EscapedAll(x[..n]) + (Escaped(x[n]) + tail)
  {
    var n := |x| - 1;
    Regrouped(EscapedAll(x[..n]), Escaped(x[n]), tail);
  }

  lemma Regrouped(a: string, b: string, c: string)
    ensures a + b + c == a + (b + c)
  {
  }

  lemma ReadFront(read: string, x: string)
    requires x != []
    ensures read + x[..|x| - 1] + [x[|x| - 1]] == read + x
  {
  }

  lemma {:induction false} EscapedReadsBack(x: string, tail: string, read: string)
    ensures ReadString(EscapedAll(x) + tail, read) == ReadString(tail, read + x)
  {
    if x == [] {
      assert EscapedAll(x) + tail == tail;
      assert read + x == read;
    } else {
      var n := |x| - 1;
      EscapedFront(x, tail);
      ReadFront(read, x);
      EscapedReadsBack(x[..n], Escaped(x[n]) + tail, read);
      EscapeReadsBack(x[n], tail, read + x[..n]);
    }
  }

  /** A string comes back as it was, control characters, quotes and all. */
  lemma {:induction false} StringReadsBack(x: string, tail: string)
    ensures EscapeString(x) != [] && EscapeString(x)[0] == '"'
    ensures ReadString((EscapeString(x) + tail)[1..], []) == Parsed(x, tail)
  {
    assert (EscapeString(x) + tail)[1..] == EscapedAll(x) + ("\"" + tail);
    EscapedReadsBack(x, "\"" + tail, []);
    assert [] + x == x;
    assert ("\"" + tail)[1..] == tail;
  }

  // ----- what can follow a value --------------------------------------------------------------

  predicate Ends(tail: string) {
    tail == [] || IsSpace(tail[0]) || tail[0] in {',', ']', '}'}
  }

  predicate AllSpace(s: string) {
    forall i | 0 <= i < |s| :: IsSpace(s[i])
  }

  lemma {:induction false} SkipPad(pad: string, s: string)
    requires AllSpace(pad) && (s == [] || !IsSpace(s[0]))
    ensures SkipSpace(pad + s) == s
  {
    if pad == [] {
      assert pad + s == s;
    } else {
      assert (pad + s)[1..] == pad[1..] + s;
      SkipPad(pad[1..], s);
    }
  }

  predicate Begins(t: string) {
    t != [] && !IsSpace(t[0]) && t[0] !in {']', '}', ','}
  }

  /** `t` is read as `v`, whatever properly follows it. */
  ghost predicate Reads(t: string, v: Value, depth: nat) {
    Begins(t) && forall tail | Ends(tail) :: ReadValue(t + tail, depth) == Parsed(v, tail)
  }

  /** Nothing is read, or reading stops at a zero byte, after which nothing can go on. */
  predicate Stops(p: Parsed<Value>) {
    p.Failed? || (p.rest != [] && p.rest[0] == NUL)
  }

  /** `t` is refused, whatever follows it. */
  ghost predicate Refused(t: string, depth: nat) {
    Begins(t) && forall tail | Ends(tail) :: Stops(ReadValue(t + tail, depth))
  }

  // ----- scalars -------------------------------------------------------------------------------

  predicate Scalar(v: Value) {
    !v.Arr? && !v.Obj?
  }

  lemma NumberBegins(v: Value)
    requires v.Int? || v.Real?
    ensures var t := ScalarText(v); t != [] && (IsDigit(t[0]) || t[0] == '-')
  {
  }

  lemma {:induction false} NumberReadsBack(v: Value, tail: string)
    requires v.Int? || (v.Real? && ShortReal(v.decimal))
    requires Valid(v) && Ends(tail)
    ensures ReadNumber(ScalarText(v) + tail) == (Some(Rounded(v)), tail)
  {
    match v {
      case Int(n) => IntReadsBack(n, tail);
      case Real(x) => RealReadsBack(x, tail);
    }
  }

  lemma LiteralReadsBack(word: string, v: Value, tail: string)
    requires word != []
    ensures ReadLiteral(word + tail, word, v) == Parsed(v, tail)
  {
    assert (word + tail)[..|word|] == word && (word + tail)[|word|..] == tail;
  }

  lemma {:induction false} WordReadsBack(v: Value, depth: nat, tail: string)
    requires v.Null? || v.Bool?
    requires depth <= MAX_DEPTH
    ensures ReadValue(ScalarText(v) + tail, depth) == Parsed(v, tail)
  {
    LiteralReadsBack(ScalarText(v), v, tail);
  }

  lemma {:induction false} TextReadsBack(x: string, depth: nat, tail: string)
    requires depth <= MAX_DEPTH
    ensures ReadValue(EscapeString(x) + tail, depth) == Parsed(Str(x), tail)
  {
    StringReadsBack(x, tail);
  }

  lemma {:induction false} NumberRead(s: string, depth: nat, v: Value, tail: string)
    requires s != [] && (IsDigit(s[0]) || s[0] == '-') && depth <= MAX_DEPTH && ReadNumber(s) == (Some(v), tail)
    ensures ReadValue(s, depth) == Parsed(v, tail)
  {
  }

  lemma {:induction false} ScalarReadsBack(v: Value, depth: nat, tail: string)
    requires Scalar(v) && Valid(v) && Finite(v) && Legible(v, depth) && Ends(tail)
    ensures Begins(ScalarText(v)) && ReadValue(ScalarText(v) + tail, depth) == Parsed(Rounded(v), tail)
  {
    if v.Str? {
      TextReadsBack(v.text, depth, tail);
    } else if v.Int? || v.Real? {
      NumberBegins(v);
      NumberReadsBack(v, tail);
      NumberRead(ScalarText(v) + tail, depth, Rounded(v), tail);
    } else {
      WordReadsBack(v, depth, tail);
    }
  }

  lemma ScalarBegins(v: Value)
    requires Scalar(v)
    ensures Begins(ScalarText(v))
  {
    if v.Int? || v.Real? {
      NumberBegins(v);
    }
  }

  lemma {:induction false} NumberStops(s: string, depth: nat)
    requires s != [] && (IsDigit(s[0]) || s[0] == '-')
    requires var rest := ReadNumber(s).1; rest != [] && rest[0] == NUL
    ensures Stops(ReadValue(s, depth))
  {
  }

  lemma {:induction false} LongRealRefused(x: real, depth: nat, tail: string)
    requires !ShortReal(x)
    ensures Stops(ReadValue(RealText(x) + tail, depth))
  {
    var t := RealText(x);
    assert t != [] && (IsDigit(t[0]) || t[0] == '-') by { NumberBegins(Real(x)); }
    LongRealStops(x, tail);
    NumberStops(t + tail, depth);
  }

  lemma {:induction false} ScalarSettles(v: Value, depth: nat)
    requires Scalar(v) && Valid(v) && Finite(v)
    ensures Settles(ScalarText(v), v, depth)
  {
    ScalarBegins(v);
    if Legible(v, depth) {
      forall tail | Ends(tail) ensures ReadValue(ScalarText(v) + tail, depth) == Parsed(Rounded(v), tail) {
        ScalarReadsBack(v, depth, tail);
      }
    } else if depth <= MAX_DEPTH {
      forall tail | Ends(tail) ensures Stops(ReadValue(ScalarText(v) + tail, depth)) {
        LongRealRefused(v.decimal, depth, tail);
      }
    }
  }

  // ----- elements one after another --------------------------------------------------------------

  lemma {:induction false} ItemComma(pad: string, t: string, v: Value, depth: nat, read: seq<Value>, rest: string)
    requires AllSpace(pad) && Reads(t, v, depth + 1)
    ensures ReadItems(pad + t + ("," + rest), depth, read) == ReadItems(rest, depth, read + [v])
  {
    var tail := "," + rest;
    assert pad + t + tail == pad + (t + tail);
    SkipPad(pad, t + tail);
    assert ReadValue(t + tail, depth + 1) == Parsed(v, tail);
    CommaThen(rest);
  }

  lemma CommaThen(rest: string)
    ensures SkipSpace("," + rest) == "," + rest && ("," + rest)[1..] == rest
  {
  }

  lemma {:induction false} ItemLast(pad: string, t: string, v: Value, depth: nat, read: seq<Value>, end: string, tail: string)
    requires AllSpace(pad) && AllSpace(end) && Reads(t, v, depth + 1)
    ensures ReadItems(pad + t + (end + ("]" + tail)), depth, read) == Parsed(Arr(read + [v]), tail)
  {
    var after := end + ("]" + tail);
    assert pad + t + after == pad + (t + after);
    SkipPad(pad, t + after);
    assert Ends(after) by { assert end == [] ==> after[0] == ']'; }
    assert ReadValue(t + after, depth + 1) == Parsed(v, after);
    SkipPad(end, "]" + tail);
    assert ("]" + tail)[1..] == tail;
  }

  lemma {:induction false} ItemRefused(pad: string, t: string, depth: nat, read: seq<Value>, after: string)
    requires AllSpace(pad) && Ends(after) && Refused(t, depth + 1)
    ensures ReadItems(pad + t + after, depth, read).Failed?
  {
    assert pad + t + after == pad + (t + after);
    SkipPad(pad, t + after);
  }

  // A reader of a row, from any point of it, with what it has collected: `ReadItems` or `ReadFields`.
  type Reader<!A> = (string, A) -> Parsed<Value>

  /** Before a comma, `x` takes the reader from `a` to `b`. */
  ghost predicate Takes<A>(reader: Reader<A>, x: string, a: A, b: A) {
    forall pad, rest | AllSpace(pad) :: reader(pad + x + ("," + rest), a) == reader(rest, b)
  }

  /** Before `after`, `x` has the reader end with `result`. */
  ghost predicate EndsWith<A>(reader: Reader<A>, x: string, a: A, after: string, result: Parsed<Value>) {
    forall pad | AllSpace(pad) :: reader(pad + x + after, a) == result
  }

  /** Before `after`, `x` has the reader fail. */
  ghost predicate FailsOn<A>(reader: Reader<A>, x: string, a: A, after: string) {
    forall pad | AllSpace(pad) :: reader(pad + x + after, a).Failed?
  }

  lemma Regroup(pad: string, front: string, sep: string, x: string, after: string)
    ensures pad + (front + ("," + sep) + x) + after == pad + front + ("," + (sep + x + after))
  {
  }

  /** `states` are what the reader has collected before each element of the row, and at its end. */
  lemma {:induction false} RowBefore<A>(reader: Reader<A>, xs: seq<string>, states: seq<A>, pad: string, sep: string,
                                        rest: string)
    requires AllSpace(pad) && AllSpace(sep) && 0 < |xs| && |states| == |xs| + 1
    requires forall i | 0 <= i < |xs| :: Takes(reader, xs[i], states[i], states[i + 1])
    ensures reader(pad + Joined(xs, "," + sep) + ("," + rest), states[0]) == reader(rest, states[|xs|])
    decreases |xs|
  {
    var n := |xs| - 1;
    assert Takes(reader, xs[n], states[n], states[n + 1]);
    if 0 < n {
      Regroup(pad, Joined(xs[..n], "," + sep), sep, xs[n], "," + rest);
      RowBefore(reader, xs[..n], states[..n + 1], pad, sep, sep + xs[n] + ("," + rest));
    }
  }

  lemma {:induction false} RowEnds<A>(reader: Reader<A>, xs: seq<string>, states: seq<A>, pad: string, sep: string,
                                      after: string, result: Parsed<Value>)
    requires AllSpace(pad) && AllSpace(sep) && 0 < |xs| == |states|
    requires forall i | 0 <= i < |xs| - 1 :: Takes(reader, xs[i], states[i], states[i + 1])
    requires EndsWith(reader, xs[|xs| - 1], states[|xs| - 1], after, result)
    ensures reader(pad + Joined(xs, "," + sep) + after, states[0]) == result
  {
    var n := |xs| - 1;
    if 0 < n {
      Regroup(pad, Joined(xs[..n], "," + sep), sep, xs[n], after);
      RowBefore(reader, xs[..n], states, pad, sep, sep + xs[n] + after);
    }
  }

  /** The first element that is refused has the row refused. */
  lemma {:induction false} RowRefused<A>(reader: Reader<A>, xs: seq<string>, states: seq<A>, k: nat, pad: string,
                                         sep: string, after: string)
    requires AllSpace(pad) && AllSpace(sep) && k < |xs| && |states| == k + 1 && Ends(after)
    requires forall i | 0 <= i < k :: Takes(reader, xs[i], states[i], states[i + 1])
    requires forall next | Ends(next) :: FailsOn(reader, xs[k], states[k], next)
    ensures reader(pad + Joined(xs, "," + sep) + after, states[0]).Failed?
    decreases |xs|
  {
    var n := |xs| - 1;
    if k == n {
      if 0 < n {
        Regroup(pad, Joined(xs[..n], "," + sep), sep, xs[n], after);
        RowBefore(reader, xs[..n], states, pad, sep, sep + xs[n] + after);
      }
    } else {
      Regroup(pad, Joined(xs[..n], "," + sep), sep, xs[n], after);
      RowRefused(reader, xs[..n], states, k, pad, sep, "," + (sep + xs[n] + after));
    }
  }

  // ----- elements ----------------------------------------------------------------------------------

  function ItemReader(depth: nat): Reader<seq<Value>> {
    (s: string, read: seq<Value>) => ReadItems(s, depth, read)
  }

  function Prefixes(vs: seq<Value>, n: nat): (states: seq<seq<Value>>)
    requires n <= |vs| + 1
    ensures |states| == n && forall i | 0 <= i < n :: states[i] == vs[..i]
  {
    seq(n, i requires 0 <= i < n => vs[..i])
  }

  lemma {:induction false} ItemTakes(t: string, v: Value, depth: nat, read: seq<Value>)
    requires Reads(t, v, depth + 1)
    ensures Takes(ItemReader(depth), t, read, read + [v])
  {
    forall pad, rest | AllSpace(pad)
      ensures ReadItems(pad + t + ("," + rest), depth, read) == ReadItems(rest, depth, read + [v])
    {
      ItemComma(pad, t, v, depth, read, rest);
    }
  }

  lemma {:induction false} ItemsRead(pad: string, ts: seq<string>, vs: seq<Value>, sep: string, end: string, depth: nat,
                                     tail: string)
    requires AllSpace(pad) && AllSpace(sep) && AllSpace(end) && 0 < |ts| == |vs|
    requires forall i | 0 <= i < |ts| :: Reads(ts[i], vs[i], depth + 1)
    ensures ReadItems(pad + Joined(ts, "," + sep) + (end + ("]" + tail)), depth, []) == Parsed(Arr(vs), tail)
  {
    var n := |ts| - 1;
    var states := Prefixes(vs, n + 1);
    forall i | 0 <= i < n ensures Takes(ItemReader(depth), ts[i], states[i], states[i + 1]) {
      ItemTakes(ts[i], vs[i], depth, vs[..i]);
      assert vs[..i] + [vs[i]] == vs[..i + 1];
    }
    assert vs[..n] + [vs[n]] == vs;
    forall p | AllSpace(p)
      ensures ReadItems(p + ts[n] + (end + ("]" + tail)), depth, states[n]) == Parsed(Arr(vs), tail)
    {
      ItemLast(p, ts[n], vs[n], depth, vs[..n], end, tail);
    }
    RowEnds(ItemReader(depth), ts, states, pad, sep, end + ("]" + tail), Parsed(Arr(vs), tail));
  }

  lemma {:induction false} ItemsRefused(pad: string, ts: seq<string>, vs: seq<Value>, k: nat, sep: string, depth: nat,
                                        after: string)
    requires AllSpace(pad) && AllSpace(sep) && k < |ts| == |vs| && Ends(after)
    requires forall i | 0 <= i < k :: Reads(ts[i], vs[i], depth + 1)
    requires Refused(ts[k], depth + 1)
    ensures ReadItems(pad + Joined(ts, "," + sep) + after, depth, []).Failed?
  {
    var states := Prefixes(vs, k + 1);
    forall i | 0 <= i < k ensures Takes(ItemReader(depth), ts[i], states[i], states[i + 1]) {
      ItemTakes(ts[i], vs[i], depth, vs[..i]);
      assert vs[..i] + [vs[i]] == vs[..i + 1];
    }
    forall next, p | Ends(next) && AllSpace(p) ensures ReadItems(p + ts[k] + next, depth, states[k]).Failed? {
      ItemRefused(p, ts[k], depth, states[k], next);
    }
    RowRefused(ItemReader(depth), ts, states, k, pad, sep, after);
  }

  // ----- fields one after another ------------------------------------------------------------------

  lemma ColonThen(x: string)
    requires x != [] && !IsSpace(x[0])
    ensures SkipSpace(": " + x) == ": " + x && SkipSpace((": " + x)[1..]) == x
  {
    assert (": " + x)[1..] == " " + x;
    SkipPad(" ", x);
  }

  lemma {:induction false} KeyReadsBack(pad: string, key: string, x: string)
    requires AllSpace(pad) && x != [] && !IsSpace(x[0])
    ensures ReadKey(pad + (EscapeString(key) + ": " + x)) == Parsed(key, x)
  {
    var s := EscapeString(key) + ": " + x;
    assert s == EscapeString(key) + (": " + x);
    assert s != [] && s[0] == '"' && ReadString(s[1..], []) == Parsed(key, ": " + x) by {
      StringReadsBack(key, ": " + x);
    }
    SkipPad(pad, s);
    ColonThen(x);
  }

  lemma {:induction false} FieldComma(pad: string, key: string, t: string, v: Value, depth: nat,
                                      read: map<string, Value>, rest: string)
    requires AllSpace(pad) && Reads(t, v, depth + 1)
    ensures ReadFields(pad + FieldText(key, t) + ("," + rest), depth, read) == ReadFields(rest, depth, read[key := v])
  {
    var tail := "," + rest;
    assert pad + FieldText(key, t) + tail == pad + (EscapeString(key) + ": " + (t + tail));
    KeyReadsBack(pad, key, t + tail);
    assert ReadValue(t + tail, depth + 1) == Parsed(v, tail);
    CommaThen(rest);
  }

  lemma {:induction false} FieldLast(pad: string, key: string, t: string, v: Value, depth: nat,
                                     read: map<string, Value>, end: string, tail: string)
    requires AllSpace(pad) && AllSpace(end) && Reads(t, v, depth + 1)
    ensures ReadFields(pad + FieldText(key, t) + (end + ("}" + tail)), depth, read)
            == Parsed(Obj(read[key := v]), tail)
  {
    var after := end + ("}" + tail);
    assert pad + FieldText(key, t) + after == pad + (EscapeString(key) + ": " + (t + after));
    KeyReadsBack(pad, key, t + after);
    assert Ends(after) by { assert end == [] ==> after[0] == '}'; }
    assert ReadValue(t + after, depth + 1) == Parsed(v, after);
    SkipPad(end, "}" + tail);
    assert ("}" + tail)[1..] == tail;
  }

  lemma {:induction false} FieldRefused(pad: string, key: string, t: string, depth: nat, read: map<string, Value>,
                                        after: string)
    requires AllSpace(pad) && Ends(after) && Refused(t, depth + 1)
    ensures ReadFields(pad + FieldText(key, t) + after, depth, read).Failed?
  {
    assert pad + FieldText(key, t) + after == pad + (EscapeString(key) + ": " + (t + after));
    KeyReadsBack(pad, key, t + after);
  }

  /** A map after these fields have been put into it, one after another. */
  function Filled(read: map<string, Value>, keys: seq<string>, vs: seq<Value>): map<string, Value>
    requires |keys| == |vs|
  {
    if keys == [] then read else Filled(read, keys[..|keys| - 1], vs[..|vs| - 1])[keys[|keys| - 1] := vs[|vs| - 1]]
  }

  function FieldReader(depth: nat): Reader<map<string, Value>> {
    (s: string, read: map<string, Value>) => ReadFields(s, depth, read)
  }

  function Fillings(keys: seq<string>, vs: seq<Value>, n: nat): (states: seq<map<string, Value>>)
    requires n <= |keys| + 1 && |keys| == |vs|
    ensures |states| == n && forall i | 0 <= i < n :: states[i] == Filled(map[], keys[..i], vs[..i])
  {
    seq(n, i requires 0 <= i < n => Filled(map[], keys[..i], vs[..i]))
  }

  lemma {:induction false} FilledNext(keys: seq<string>, vs: seq<Value>, i: nat)
    requires i < |keys| == |vs|
    ensures Filled(map[], keys[..i + 1], vs[..i + 1]) == Filled(map[], keys[..i], vs[..i])[keys[i] := vs[i]]
  {
    assert keys[..i + 1][..i] == keys[..i] && vs[..i + 1][..i] == vs[..i];
  }

  lemma {:induction false} FieldTakes(key: string, t: string, v: Value, depth: nat, read: map<string, Value>)
    requires Reads(t, v, depth + 1)
    ensures Takes(FieldReader(depth), FieldText(key, t), read, read[key := v])
  {
    forall pad, rest | AllSpace(pad)
      ensures ReadFields(pad + FieldText(key, t) + ("," + rest), depth, read)
              == ReadFields(rest, depth, read[key := v])
    {
      FieldComma(pad, key, t, v, depth, read, rest);
    }
  }

  lemma {:induction false} FieldsRead(pad: string, keys: seq<string>, ts: seq<string>, vs: seq<Value>, sep: string,
                                      end: string, depth: nat, tail: string)
    requires AllSpace(pad) && AllSpace(sep) && AllSpace(end) && 0 < |keys| == |ts| == |vs|
    requires forall i | 0 <= i < |ts| :: Reads(ts[i], vs[i], depth + 1)
    ensures ReadFields(pad + Joined(FieldTexts(keys, ts), "," + sep) + (end + ("}" + tail)), depth, map[])
            == Parsed(Obj(Filled(map[], keys, vs)), tail)
  {
    var n := |ts| - 1;
    var xs, states := FieldTexts(keys, ts), Fillings(keys, vs, n + 1);
    forall i | 0 <= i < n ensures Takes(FieldReader(depth), xs[i], states[i], states[i + 1]) {
      FieldTakes(keys[i], ts[i], vs[i], depth, states[i]);
      FilledNext(keys, vs, i);
    }
    FilledNext(keys, vs, n);
    assert keys[..n + 1] == keys && vs[..n + 1] == vs;
    var result := Parsed(Obj(Filled(map[], keys, vs)), tail);
    forall p | AllSpace(p) ensures ReadFields(p + xs[n] + (end + ("}" + tail)), depth, states[n]) == result {
      FieldLast(p, keys[n], ts[n], vs[n], depth, states[n], end, tail);
    }
    RowEnds(FieldReader(depth), xs, states, pad, sep, end + ("}" + tail), result);
  }

  lemma {:induction false} FieldsRefused(pad: string, keys: seq<string>, ts: seq<string>, vs: seq<Value>, k: nat,
                                         sep: string, depth: nat, after: string)
    requires AllSpace(pad) && AllSpace(sep) && k < |keys| == |ts| == |vs| && Ends(after)
    requires forall i | 0 <= i < k :: Reads(ts[i], vs[i], depth + 1)
    requires Refused(ts[k], depth + 1)
    ensures ReadFields(pad + Joined(FieldTexts(keys, ts), "," + sep) + after, depth, map[]).Failed?
  {
    var xs, states := FieldTexts(keys, ts), Fillings(keys, vs, k + 1);
    forall i | 0 <= i < k ensures Takes(FieldReader(depth), xs[i], states[i], states[i + 1]) {
      FieldTakes(keys[i], ts[i], vs[i], depth, states[i]);
      FilledNext(keys, vs, i);
    }
    forall next, p | Ends(next) && AllSpace(p) ensures ReadFields(p + xs[k] + next, depth, states[k]).Failed? {
      FieldRefused(p, keys[k], ts[k], depth, states[k], next);
    }
    RowRefused(FieldReader(depth), xs, states, k, pad, sep, after);
  }

  // ----- arrays and objects --------------------------------------------------------------------------

  /** What is to be shown of a text of `v` at this depth. */
  ghost predicate Settles(t: string, v: Value, depth: nat) {
    if Legible(v, depth) then Reads(t, Rounded(v), depth) else Refused(t, depth)
  }

  function RoundedAll(vs: seq<Value>): (r: seq<Value>)
    ensures |r| == |vs| && forall i | 0 <= i < |vs| :: r[i] == Rounded(vs[i])
  {
    seq(|vs|, i requires 0 <= i < |vs| => Rounded(vs[i]))
  }

  /** The first of the texts that is refused. */
  lemma {:induction false} FirstRefused(ts: seq<string>, vs: seq<Value>, depth: nat) returns (k: nat)
    requires |ts| == |vs| && forall i | 0 <= i < |ts| :: Settles(ts[i], vs[i], depth)
    requires exists i :: 0 <= i < |vs| && !Legible(vs[i], depth)
    ensures k < |ts| && Refused(ts[k], depth)
    ensures forall i | 0 <= i < k :: Reads(ts[i], Rounded(vs[i]), depth)
  {
    k := 0;
    while Legible(vs[k], depth)
      invariant k < |vs| && forall i | 0 <= i < k :: Legible(vs[i], depth)
      decreases |vs| - k
    {
      k := k + 1;
    }
  }

  lemma {:induction false} ArrayOpens(x: string, depth: nat)
    requires depth <= MAX_DEPTH && SkipSpace(x) != [] && SkipSpace(x)[0] != ']'
    ensures ReadValue("[" + x, depth) == ReadItems(x, depth, [])
  {
    assert ("[" + x)[1..] == x;
    ItemsSkip(x, depth, []);
  }

  lemma {:induction false} ItemsSkip(x: string, depth: nat, read: seq<Value>)
    ensures ReadItems(SkipSpace(x), depth, read) == ReadItems(x, depth, read)
  {
  }

  lemma {:induction false} ObjectOpens(x: string, depth: nat)
    requires depth <= MAX_DEPTH && SkipSpace(x) != [] && SkipSpace(x)[0] != '}'
    ensures ReadValue("{" + x, depth) == ReadFields(x, depth, map[])
  {
    assert ("{" + x)[1..] == x;
    FieldsSkip(x, depth, map[]);
  }

  lemma {:induction false} FieldsSkip(x: string, depth: nat, read: map<string, Value>)
    ensures ReadFields(SkipSpace(x), depth, read) == ReadFields(x, depth, read)
  {
  }

  lemma {:induction false} JoinedBegins(ts: seq<string>, glue: string)
    requires ts != [] && Begins(ts[0])
    ensures Joined(ts, glue) != [] && Joined(ts, glue)[0] == ts[0][0]
  {
    if 1 < |ts| {
      JoinedBegins(ts[..|ts| - 1], glue);
    }
  }

  lemma Row3(open: string, pad: string, row: string, end: string, close: string, tail: string)
    ensures open + pad + row + end + close + tail == open + (pad + row + (end + (close + tail)))
  {
  }

  lemma {:induction false} RowBegins(pad: string, ts: seq<string>, glue: string, after: string)
    requires AllSpace(pad) && ts != [] && Begins(ts[0])
    ensures var x := pad + Joined(ts, glue) + after; SkipSpace(x) != [] && SkipSpace(x)[0] == ts[0][0]
  {
    JoinedBegins(ts, glue);
    var x := Joined(ts, glue) + after;
    SkipPad(pad, x);
    assert pad + Joined(ts, glue) + after == pad + x;
  }

  /** Past the bracket, an array is its row. */
  lemma {:induction false} ArrayBody(ts: seq<string>, pad: string, glue: string, end: string, depth: nat, tail: string)
    requires AllSpace(pad) && ts != [] && Begins(ts[0]) && depth <= MAX_DEPTH
    ensures ReadValue("[" + pad + Joined(ts, glue) + end + "]" + tail, depth)
            == ReadItems(pad + Joined(ts, glue) + (end + ("]" + tail)), depth, [])
  {
    Row3("[", pad, Joined(ts, glue), end, "]", tail);
    RowBegins(pad, ts, glue, end + ("]" + tail));
    ArrayOpens(pad + Joined(ts, glue) + (end + ("]" + tail)), depth);
  }

  lemma {:induction false} ObjectBody(xs: seq<string>, pad: string, glue: string, end: string, depth: nat, tail: string)
    requires AllSpace(pad) && xs != [] && Begins(xs[0]) && depth <= MAX_DEPTH
    ensures ReadValue("{" + pad + Joined(xs, glue) + end + "}" + tail, depth)
            == ReadFields(pad + Joined(xs, glue) + (end + ("}" + tail)), depth, map[])
  {
    Row3("{", pad, Joined(xs, glue), end, "}", tail);
    RowBegins(pad, xs, glue, end + ("}" + tail));
    ObjectOpens(pad + Joined(xs, glue) + (end + ("}" + tail)), depth);
  }

  lemma EndEnds(end: string, close: string, tail: string)
    requires AllSpace(end) && (close == "]" || close == "}")
    ensures Ends(end + (close + tail))
  {
    if end == [] {
      assert (end + (close + tail))[0] == close[0];
    }
  }

  lemma RoundedArray(items: seq<Value>)
    ensures Rounded(Arr(items)) == Arr(RoundedAll(items))
  {
    assert Rounded(Arr(items)).items == RoundedAll(items);
  }

  /** An array in either layout, all its elements read or one refused. */
  lemma {:induction false} ArrayRow(items: seq<Value>, ts: seq<string>, pad: string, sep: string, end: string,
                                    depth: nat, tail: string)
    requires AllSpace(pad) && AllSpace(sep) && AllSpace(end) && 0 < |ts| == |items|
    requires forall i | 0 <= i < |ts| :: Settles(ts[i], items[i], depth + 1)
    ensures var p := ReadItems(pad + Joined(ts, "," + sep) + (end + ("]" + tail)), depth, []);
      if forall i | 0 <= i < |items| :: Legible(items[i], depth + 1)
      then p == Parsed(Arr(RoundedAll(items)), tail) else p.Failed?
  {
    if forall i | 0 <= i < |items| :: Legible(items[i], depth + 1) {
      ItemsRead(pad, ts, RoundedAll(items), sep, end, depth, tail);
    } else {
      var k := FirstRefused(ts, items, depth + 1);
      EndEnds(end, "]", tail);
      ItemsRefused(pad, ts, RoundedAll(items), k, sep, depth, end + ("]" + tail));
    }
  }

  lemma {:induction false} ArraySettles(items: seq<Value>, ts: seq<string>, pad: string, sep: string, end: string,
                                        depth: nat)
    requires AllSpace(pad) && AllSpace(sep) && AllSpace(end) && 0 < |ts| == |items|
    requires forall i | 0 <= i < |ts| :: Settles(ts[i], items[i], depth + 1)
    ensures Settles(ArrayText(ts, pad, sep, end), Arr(items), depth)
  {
    var t := ArrayText(ts, pad, sep, end);
    assert Begins(ts[0]) by { assert Settles(ts[0], items[0], depth + 1); }
    RoundedArray(items);
    forall tail | Ends(tail)
      ensures if Legible(Arr(items), depth) then ReadValue(t + tail, depth) == Parsed(Rounded(Arr(items)), tail)
              else Stops(ReadValue(t + tail, depth))
    {
      if depth <= MAX_DEPTH {
        ArrayBody(ts, pad, "," + sep, end, depth, tail);
        ArrayRow(items, ts, pad, sep, end, depth, tail);
      }
    }
  }

  lemma {:induction false} FieldRow(keys: seq<string>, vs: seq<Value>, ts: seq<string>, pad: string, sep: string,
                                    end: string, depth: nat, tail: string)
    requires AllSpace(pad) && AllSpace(sep) && AllSpace(end) && 0 < |ts| == |keys| == |vs|
    requires forall i | 0 <= i < |ts| :: Settles(ts[i], vs[i], depth + 1)
    ensures var p := ReadFields(pad + Joined(FieldTexts(keys, ts), "," + sep) + (end + ("}" + tail)), depth, map[]);
      if forall i | 0 <= i < |vs| :: Legible(vs[i], depth + 1)
      then p == Parsed(Obj(Filled(map[], keys, RoundedAll(vs))), tail) else p.Failed?
  {
    if forall i | 0 <= i < |vs| :: Legible(vs[i], depth + 1) {
      FieldsRead(pad, keys, ts, RoundedAll(vs), sep, end, depth, tail);
    } else {
      var k := FirstRefused(ts, vs, depth + 1);
      EndEnds(end, "}", tail);
      FieldsRefused(pad, keys, ts, RoundedAll(vs), k, sep, depth, end + ("}" + tail));
    }
  }

  lemma {:induction false} LegibleFields(fields: map<string, Value>, keys: seq<string>, depth: nat)
    requires forall k :: k in keys <==> k in fields
    ensures (forall k | k in fields :: Legible(fields[k], depth)) <==>
            (forall i | 0 <= i < |keys| :: Legible(ValuesOf(fields, keys)[i], depth))
  {
    if forall i | 0 <= i < |keys| :: Legible(ValuesOf(fields, keys)[i], depth) {
      forall k | k in fields ensures Legible(fields[k], depth) {
        var i :| 0 <= i < |keys| && keys[i] == k;
        assert Legible(ValuesOf(fields, keys)[i], depth);
      }
    }
  }

  /** An object in either layout, its keys in any order that names each at least once. */
  lemma {:induction false} ObjectRow(fields: map<string, Value>, keys: seq<string>, ts: seq<string>, pad: string,
                                     sep: string, end: string, depth: nat, tail: string)
    requires AllSpace(pad) && AllSpace(sep) && AllSpace(end) && 0 < |ts| == |keys|
    requires forall k :: k in keys <==> k in fields
    requires forall i | 0 <= i < |ts| :: Settles(ts[i], ValuesOf(fields, keys)[i], depth + 1)
    ensures var p := ReadFields(pad + Joined(FieldTexts(keys, ts), "," + sep) + (end + ("}" + tail)), depth, map[]);
      if forall k | k in fields :: Legible(fields[k], depth + 1)
      then p == Parsed(Rounded(Obj(fields)), tail) else p.Failed?
  {
    var vs := ValuesOf(fields, keys);
    LegibleFields(fields, keys, depth + 1);
    FieldRow(keys, vs, ts, pad, sep, end, depth, tail);
    FilledIsRounded(fields, keys, RoundedAll(vs));
  }

  lemma {:induction false} ObjectSettles(fields: map<string, Value>, keys: seq<string>, ts: seq<string>, pad: string,
                                         sep: string, end: string, depth: nat)
    requires AllSpace(pad) && AllSpace(sep) && AllSpace(end) && 0 < |ts| == |keys|
    requires forall k :: k in keys <==> k in fields
    requires forall i | 0 <= i < |ts| :: Settles(ts[i], ValuesOf(fields, keys)[i], depth + 1)
    ensures Settles(ObjectText(keys, ts, pad, sep, end), Obj(fields), depth)
  {
    var xs := FieldTexts(keys, ts);
    var t := ObjectText(keys, ts, pad, sep, end);
    assert Begins(xs[0]) && xs[0][0] == '"';
    forall tail | Ends(tail)
      ensures if Legible(Obj(fields), depth) then ReadValue(t + tail, depth) == Parsed(Rounded(Obj(fields)), tail)
              else Stops(ReadValue(t + tail, depth))
    {
      if depth <= MAX_DEPTH {
        ObjectBody(xs, pad, "," + sep, end, depth, tail);
        ObjectRow(fields, keys, ts, pad, sep, end, depth, tail);
      }
    }
  }

  lemma {:induction false} FilledHas(keys: seq<string>, vs: seq<Value>, k: string)
    requires |keys| == |vs|
    ensures k in Filled(map[], keys, vs) <==> k in keys
    ensures k in keys ==> exists i :: 0 <= i < |keys| && keys[i] == k && Filled(map[], keys, vs)[k] == vs[i]
  {
    if keys != [] {
      var n := |keys| - 1;
      assert keys == keys[..n] + [keys[n]];
      FilledHas(keys[..n], vs[..n], k);
      if k == keys[n] {
        assert Filled(map[], keys, vs)[k] == vs[n];
      } else if k in keys {
        var i :| 0 <= i < n && keys[..n][i] == k && Filled(map[], keys[..n], vs[..n])[k] == vs[..n][i];
        assert keys[i] == k && Filled(map[], keys, vs)[k] == vs[i];
      }
    }
  }

  lemma {:induction false} FilledIsRounded(fields: map<string, Value>, keys: seq<string>, vs: seq<Value>)
    requires |keys| == |vs| && forall k :: k in keys <==> k in fields
    requires forall i | 0 <= i < |keys| :: vs[i] == Rounded(fields[keys[i]])
    ensures Filled(map[], keys, vs) == Rounded(Obj(fields)).fields
  {
    var filled, rounded := Filled(map[], keys, vs), Rounded(Obj(fields)).fields;
    forall k ensures k in filled <==> k in rounded {
      FilledHas(keys, vs, k);
    }
    forall k | k in filled ensures filled[k] == rounded[k] {
      FilledHas(keys, vs, k);
    }
  }

  // ----- whole values and files ------------------------------------------------------------------------

  lemma SpaceOnly(depth: nat)
    ensures AllSpace(NewLine(depth)) && AllSpace(" ") && AllSpace("")
  {
  }

  lemma {:induction false} EmptySettles(depth: nat)
    ensures Settles("[]", Arr([]), depth) && Settles("{}", Obj(map[]), depth)
  {
    assert Rounded(Arr([])) == Arr([]);
    assert Rounded(Obj(map[])) == Obj(map[]) by { assert Rounded(Obj(map[])).fields == map[]; }
    forall tail | Ends(tail) && depth <= MAX_DEPTH
      ensures ReadValue("[]" + tail, depth) == Parsed(Arr([]), tail)
      ensures ReadValue("{}" + tail, depth) == Parsed(Obj(map[]), tail)
    {
      assert ("[]" + tail)[1..] == "]" + tail && ("]" + tail)[1..] == tail;
      assert ("{}" + tail)[1..] == "}" + tail && ("}" + tail)[1..] == tail;
    }
  }

  lemma {:induction false} InlineArraySettles(items: seq<Value>, depth: nat)
    requires forall i | 0 <= i < |items| :: Settles(Inline(items[i]), items[i], depth + 1)
    ensures Settles(Inline(Arr(items)), Arr(items), depth)
  {
    InlineArray(items);
    if items == [] {
      EmptySettles(depth);
      assert ArrayText([], "", " ", "") == "[]";
    } else {
      ArraySettles(items, InlineAll(items), "", " ", "", depth);
    }
  }

  lemma {:induction false} InlineObjectSettles(fields: map<string, Value>, depth: nat)
    requires forall k | k in fields :: Settles(Inline(fields[k]), fields[k], depth + 1)
    ensures Settles(Inline(Obj(fields)), Obj(fields), depth)
  {
    var keys := SortedKeys(fields.Keys);
    InlineObject(fields);
    if fields == map[] {
      EmptySettles(depth);
      assert ObjectText([], [], "", " ", "") == "{}";
    } else {
      KeysThere(fields, keys);
      ObjectSettles(fields, keys, InlineAll(ValuesOf(fields, keys)), "", " ", "", depth);
    }
  }

  lemma KeysThere(fields: map<string, Value>, keys: seq<string>)
    requires fields != map[] && forall k :: k in keys <==> k in fields
    ensures keys != []
  {
    var k :| k in fields;
    assert k in keys;
  }

  /** The single-line form of any value reads back. */
  lemma {:induction false} InlineSettles(v: Value, depth: nat)
    requires Valid(v) && Finite(v)
    ensures Settles(Inline(v), v, depth)
  {
    match v {
      case Arr(items) =>
        forall i | 0 <= i < |items| ensures Settles(Inline(items[i]), items[i], depth + 1) {
          InlineSettles(items[i], depth + 1);
        }
        InlineArraySettles(items, depth);
      case Obj(fields) =>
        forall k | k in fields ensures Settles(Inline(fields[k]), fields[k], depth + 1) {
          InlineSettles(fields[k], depth + 1);
        }
        InlineObjectSettles(fields, depth);
      case _ => ScalarSettles(v, depth);
    }
  }

  lemma {:induction false} TextArraySettles(items: seq<Value>, depth: nat, indent: nat, order: seq<string>)
    requires items != [] && !OneLine(items)
    requires forall i | 0 <= i < |items| :: Settles(Text(items[i], indent + 1, []), items[i], depth + 1)
    ensures Settles(Text(Arr(items), indent, order), Arr(items), depth)
  {
    TextArray(items, indent, order);
    SpaceOnly(indent);
    SpaceOnly(indent + 1);
    ArraySettles(items, TextAll(items, indent + 1), NewLine(indent + 1), NewLine(indent + 1), NewLine(indent), depth);
  }

  lemma {:induction false} TextObjectSettles(fields: map<string, Value>, depth: nat, indent: nat, order: seq<string>)
    requires fields != map[]
    requires forall k | k in fields :: Settles(Text(fields[k], indent + 1, []), fields[k], depth + 1)
    ensures Settles(Text(Obj(fields), indent, order), Obj(fields), depth)
  {
    var keys := Entries(fields.Keys, order);
    TextObject(fields, indent, order);
    SpaceOnly(indent);
    SpaceOnly(indent + 1);
    KeysThere(fields, keys);
    ObjectSettles(fields, keys, TextAll(ValuesOf(fields, keys), indent + 1), NewLine(indent + 1), NewLine(indent + 1),
                  NewLine(indent), depth);
  }

  /** A value whose text does not break over lines. */
  predicate OnOneLine(v: Value) {
    || Scalar(v)
    || (v.Arr? && (v.items == [] || OneLine(v.items)))
    || (v.Obj? && v.fields == map[])
  }

  lemma {:induction false} OneLineSettles(v: Value, depth: nat, indent: nat, order: seq<string>)
    requires Valid(v) && Finite(v) && OnOneLine(v)
    ensures Settles(Text(v, indent, order), v, depth)
  {
    if Scalar(v) {
      ScalarSettles(v, depth);
    } else if v == Arr([]) || v == Obj(map[]) {
      EmptySettles(depth);
    } else {
      InlineSettles(v, depth);
    }
  }

  /** The canonical text of any value reads back, at any indent and whatever keys are hoisted; nested too deep, it
      is refused. */
  lemma {:induction false} TextSettles(v: Value, depth: nat, indent: nat, order: seq<string>)
    requires Valid(v) && Finite(v)
    ensures Settles(Text(v, indent, order), v, depth)
  {
    if OnOneLine(v) {
      OneLineSettles(v, depth, indent, order);
    } else if v.Arr? {
      forall i | 0 <= i < |v.items| ensures Settles(Text(v.items[i], indent + 1, []), v.items[i], depth + 1) {
        TextSettles(v.items[i], depth + 1, indent + 1, []);
      }
      TextArraySettles(v.items, depth, indent, order);
    } else {
      forall k | k in v.fields ensures Settles(Text(v.fields[k], indent + 1, []), v.fields[k], depth + 1) {
        TextSettles(v.fields[k], depth + 1, indent + 1, []);
      }
      TextObjectSettles(v.fields, depth, indent, order);
    }
  }

  /** The round trip of a file. What is written is read back exactly when it nests no deeper than the parser goes
      and no real is too long for the buffer, and then it is what was written, reals kept to six decimals. */
  lemma {:induction false} FileRoundTrip(v: Value, order: seq<string>)
    requires Valid(v) && Finite(v)
    ensures ReadFile(FileText(v, order)) == if Shallow(v, 0) && Printable(v) then Some(Rounded(v)) else None
  {
    var t := Text(v, 0, order);
    TextSettles(v, 0, 0, order);
    LegibleMeans(v, 0);
    FileBegins(v, order);
    assert ("\n")[1..] == "";
    assert SkipSpace("\n") == "" by { assert SkipSpace("") == ""; }
    assert Ends("\n");
  }

  /** A real that is written and not read back: ten to the sixtieth, alone or anywhere in a tree. */
  lemma {:induction false} LongRealIsLost(v: Value, order: seq<string>)
    requires Valid(v) && Finite(v) && Shallow(v, 0) && Contains(v, Real(Pow10(60) as real))
    ensures ReadFile(FileText(v, order)) == None
  {
    TooLong();
    NotPrintable(v, Real(Pow10(60) as real));
    FileRoundTrip(v, order);
  }

  predicate Contains(v: Value, x: Value) {
    || v == x
    || (v.Arr? && exists i :: 0 <= i < |v.items| && Contains(v.items[i], x))
    || (v.Obj? && exists k :: k in v.fields && Contains(v.fields[k], x))
  }

  lemma {:induction false} NotPrintable(v: Value, x: Value)
    requires Contains(v, x) && !Printable(x)
    ensures !Printable(v)
  {
    if v != x {
      match v {
        case Arr(items) =>
          var i :| 0 <= i < |items| && Contains(items[i], x);
          NotPrintable(items[i], x);
        case Obj(fields) =>
          var k :| k in fields && Contains(fields[k], x);
          NotPrintable(fields[k], x);
      }
    }
  }

  lemma TooLong()
    ensures !ShortReal(Pow10(60) as real)
  {
    ShortRealIff(Pow10(60) as real);
    MillionTimes(60);
    var m: int := 1000000 * Pow10(60);
    assert Pow10(60) as real * MICRO == m as real;
    assert Nearest(m as real) == m;
    assert Pow10(62) == 10 * Pow10(61) && Pow10(61) == 10 * Pow10(60);
    assert Pow10(66) == m;
  }

  /** No text begins with a byte order mark or with space. */
  lemma {:induction false} FileBegins(v: Value, order: seq<string>)
    requires Valid(v) && Finite(v)
    ensures SkipSpace(WithoutMark(FileText(v, order))) == FileText(v, order)
  {
    TextBegins(v, 0, order);
  }

  lemma {:induction false} TextBegins(v: Value, indent: nat, order: seq<string>)
    ensures var t := Text(v, indent, order); t != [] && !IsSpace(t[0]) && t[0] < Byte(0x80)
  {
    if v.Arr? && v.items != [] && OneLine(v.items) {
      InlineArray(v.items);
    } else if v.Int? || v.Real? {
      NumberBegins(v);
    }
  }

  /** A value comes back as it was exactly when it nests no deeper than the parser goes, its reals fit the buffer,
      and they are whole millionths. */
  lemma {:induction false} FixedPointRoundTrip(v: Value, order: seq<string>)
    requires Valid(v) && Finite(v)
    ensures ReadFile(FileText(v, order)) == Some(v) <==> Shallow(v, 0) && Printable(v) && FixedPoint(v)
  {
    FileRoundTrip(v, order);
    RoundedKeeps(v);
  }

  lemma KeptIsKept(x: real)
    ensures RealText(Kept(x)) == RealText(x)
  {
    MicrosOfWhole(Micros(x));
  }

  lemma {:induction false} SameInlineArray(items: seq<Value>)
    requires forall i | 0 <= i < |items| :: Inline(Rounded(items[i])) == Inline(items[i])
    ensures Inline(Arr(RoundedAll(items))) == Inline(Arr(items))
  {
    InlineArray(items);
    InlineArray(RoundedAll(items));
    assert InlineAll(RoundedAll(items)) == InlineAll(items);
  }

  /** The same keys, every value rounded. */
  ghost predicate AreRounded(rounded: map<string, Value>, fields: map<string, Value>) {
    rounded.Keys == fields.Keys && forall k | k in fields :: rounded[k] == Rounded(fields[k])
  }

  lemma {:induction false} SameInlineObject(fields: map<string, Value>, rounded: map<string, Value>)
    requires AreRounded(rounded, fields)
    requires forall k | k in fields :: Inline(Rounded(fields[k])) == Inline(fields[k])
    ensures Inline(Obj(rounded)) == Inline(Obj(fields))
  {
    var keys := SortedKeys(fields.Keys);
    InlineObject(fields);
    InlineObject(rounded);
    assert InlineAll(ValuesOf(rounded, keys)) == InlineAll(ValuesOf(fields, keys));
  }

  lemma {:induction false} SameInline(v: Value)
    ensures Inline(Rounded(v)) == Inline(v)
  {
    match v {
      case Real(x) => KeptIsKept(x);
      case Arr(items) =>
        forall i | 0 <= i < |items| ensures Inline(Rounded(items[i])) == Inline(items[i]) {
          SameInline(items[i]);
        }
        RoundedArray(items);
        SameInlineArray(items);
      case Obj(fields) =>
        forall k | k in fields ensures Inline(Rounded(fields[k])) == Inline(fields[k]) {
          SameInline(fields[k]);
        }
        SameInlineObject(fields, Rounded(v).fields);
      case _ =>
    }
  }

  lemma {:induction false} SameTextArray(items: seq<Value>, indent: nat, order: seq<string>)
    requires items != [] && !OneLine(items)
    requires forall i | 0 <= i < |items| :: Text(Rounded(items[i]), indent + 1, []) == Text(items[i], indent + 1, [])
    ensures Text(Arr(RoundedAll(items)), indent, order) == Text(Arr(items), indent, order)
  {
    TextArray(items, indent, order);
    TextArray(RoundedAll(items), indent, order);
    assert TextAll(RoundedAll(items), indent + 1) == TextAll(items, indent + 1);
  }

  lemma {:induction false} SameTextObject(fields: map<string, Value>, rounded: map<string, Value>, indent: nat,
                                          order: seq<string>)
    requires fields != map[] && AreRounded(rounded, fields)
    requires forall k | k in fields :: Text(Rounded(fields[k]), indent + 1, []) == Text(fields[k], indent + 1, [])
    ensures Text(Obj(rounded), indent, order) == Text(Obj(fields), indent, order)
  {
    var keys := Entries(fields.Keys, order);
    assert rounded != map[] by {
      var k :| k in fields;
      assert k in rounded;
    }
    TextObject(fields, indent, order);
    TextObject(rounded, indent, order);
    SameFieldTexts(fields, rounded, keys, indent + 1);
  }

  lemma {:induction false} SameFieldTexts(fields: map<string, Value>, rounded: map<string, Value>, keys: seq<string>,
                                          indent: nat)
    requires AreRounded(rounded, fields) && forall k | k in keys :: k in fields && k in rounded
    requires forall k | k in fields :: Text(Rounded(fields[k]), indent, []) == Text(fields[k], indent, [])
    ensures TextAll(ValuesOf(rounded, keys), indent) == TextAll(ValuesOf(fields, keys), indent)
  {
  }

  lemma {:induction false} SameOneLine(v: Value, indent: nat, order: seq<string>)
    requires OnOneLine(v)
    ensures Text(Rounded(v), indent, order) == Text(v, indent, order)
  {
    if v.Real? {
      KeptIsKept(v.decimal);
    } else if v.Arr? {
      RoundedArray(v.items);
      SameInline(v);
    } else if v.Obj? {
      assert Rounded(v).fields == map[];
    }
  }

  /** Cutting the reals to six decimals does not change what is written. */
  lemma {:induction false} SameText(v: Value, indent: nat, order: seq<string>)
    ensures Text(Rounded(v), indent, order) == Text(v, indent, order)
  {
    if OnOneLine(v) {
      SameOneLine(v, indent, order);
    } else if v.Arr? {
      forall i | 0 <= i < |v.items|
        ensures Text(Rounded(v.items[i]), indent + 1, []) == Text(v.items[i], indent + 1, [])
      {
        SameText(v.items[i], indent + 1, []);
      }
      RoundedArray(v.items);
      SameTextArray(v.items, indent, order);
    } else {
      forall k | k in v.fields
        ensures Text(Rounded(v.fields[k]), indent + 1, []) == Text(v.fields[k], indent + 1, [])
      {
        SameText(v.fields[k], indent + 1, []);
      }
      SameTextObject(v.fields, Rounded(v).fields, indent, order);
    }
  }

  /** Reading a file and writing it again gives the same bytes, whenever it can be read: when it nests no deeper than
      the parser goes and its reals fit the buffer. */
  lemma {:induction false} RewritingIsStable(v: Value, order: seq<string>)
    requires Valid(v) && Finite(v)
    ensures var read := ReadFile(FileText(v, order));
      && (read.Some? <==> Shallow(v, 0) && Printable(v))
      && (read.Some? ==> FileText(read.value, order) == FileText(v, order))
  {
    FileRoundTrip(v, order);
    SameText(v, 0, order);
  }
}
