/**
 The canonical spelling of a value: keys in order, one element per line, and arrays of numbers, perhaps with one
 object at their end, on a single line.
 */
module JsonText {
  import opened Json
  import opened JsonNumbers

  // ----- strings -----------------------------------------------------------------------

  function HexDigit(d: nat): char
    requires d < 16
  {
    "0123456789abcdef"[d]
  }

  /** Only what must be escaped is. */
  function Escaped(c: char): string {
    if c == '"' then "\\\""
    else if c == '\\' then "\\\\"
    else if c < ' ' then "\\u00" + [HexDigit(c as int / 16), HexDigit(c as int % 16)]
    else [c]
  }

  function EscapedAll(s: string): string {
    if s == [] then [] else EscapedAll(s[..|s| - 1]) + Escaped(s[|s| - 1])
  }

  function EscapeString(s: string): string {
    "\"" + EscapedAll(s) + "\""
  }

  // ----- the order of keys ---------------------------------------------------------------

  /** Byte order of keys: the order of the source's map. */
  predicate KeyBefore(a: string, b: string) {
    b != [] && (a == [] || a[0] < b[0] || (a[0] == b[0] && KeyBefore(a[1..], b[1..])))
  }

  ghost predicate IsLeast(s: set<string>, k: string) {
    k in s && forall j | j in s && j != k :: KeyBefore(k, j)
  }

  lemma {:induction false} KeyTotal(a: string, b: string)
    ensures a == b || KeyBefore(a, b) || KeyBefore(b, a)
    ensures !(KeyBefore(a, b) && KeyBefore(b, a)) && !KeyBefore(a, a)
  {
    if a != [] && b != [] {
      KeyTotal(a[1..], b[1..]);
      if a[0] == b[0] && a[1..] == b[1..] {
        assert a == [a[0]] + a[1..] && b == [b[0]] + b[1..];
      }
      KeyIrreflexive(a);
    } else if a != [] {
      KeyIrreflexive(a);
    }
  }

  lemma {:induction false} KeyIrreflexive(a: string)
    ensures !KeyBefore(a, a)
  {
    if a != [] {
      KeyIrreflexive(a[1..]);
    }
  }

  lemma {:induction false} KeyTransitive(a: string, b: string, c: string)
    requires KeyBefore(a, b) && KeyBefore(b, c)
    ensures KeyBefore(a, c)
  {
    if a != [] && a[0] == b[0] == c[0] {
      KeyTransitive(a[1..], b[1..], c[1..]);
    }
  }

  lemma {:induction false} HasLeast(s: set<string>) returns (k: string)
    requires s != {}
    ensures IsLeast(s, k)
  {
    var x :| x in s;
    var rest := s - {x};
    if rest == {} {
      k := x;
      assert forall j | j in s :: j == x || j in rest;
    } else {
      var l := HasLeast(rest);
      KeyTotal(x, l);
      if KeyBefore(x, l) {
        k := x;
        forall j | j in s && j != k ensures KeyBefore(k, j) {
          assert j in rest;
          if j != l {
            KeyTransitive(x, l, j);
          }
        }
      } else {
        k := l;
        forall j | j in s && j != k ensures KeyBefore(k, j) {
          assert j == x || j in rest;
        }
      }
    }
  }

  ghost function Least(s: set<string>): (k: string)
    requires s != {}
    ensures IsLeast(s, k)
  {
    assert exists k :: IsLeast(s, k) by { var k := HasLeast(s); }
    var k :| IsLeast(s, k);
    k
  }

  ghost function SortedKeys(s: set<string>): (keys: seq<string>)
    ensures forall k :: k in keys <==> k in s
  {
    if s == {} then [] else [Least(s)] + SortedKeys(s - {Least(s)})
  }

  /** The keys of `order` that the object has, as often as `order` names them. */
  function Hoisted(keys: set<string>, order: seq<string>): (hoisted: seq<string>)
    ensures forall k :: k in hoisted <==> k in keys && k in order
  {
    if order == [] then []
    else
      var rest := Hoisted(keys, order[..|order| - 1]);
      assert forall k :: k in order <==> k in order[..|order| - 1] || k == order[|order| - 1];
      if order[|order| - 1] in keys then rest + [order[|order| - 1]] else rest
  }

  /** Hoisted keys first, then the others ascending. */
  ghost function Entries(keys: set<string>, order: seq<string>): (entries: seq<string>)
    ensures forall k :: k in entries <==> k in keys
  {
    Hoisted(keys, order) + SortedKeys(keys - set k | k in order)
  }

  // ----- layout ----------------------------------------------------------------------------

  /** All numbers, perhaps with one object at the end: a note record. */
  predicate OneLine(items: seq<Value>) {
    && items != [] && IsNumber(items[0])
    && forall i | 0 <= i < |items| :: IsNumber(items[i]) || (items[i].Obj? && i + 1 == |items|)
  }

  function Joined(texts: seq<string>, glue: string): string {
    if texts == [] then ""
    else if |texts| == 1 then texts[0]
    else Joined(texts[..|texts| - 1], glue) + glue + texts[|texts| - 1]
  }

  function Spaces(n: nat): string {
    seq(n, _ => ' ')
  }

  function NewLine(depth: nat): string {
    "\n" + Spaces(depth * 2)
  }

  function ScalarText(v: Value): string {
    match v
    case Bool(b) => if b then "true" else "false"
    case Int(n) => IntText(n)
    case Real(x) => RealText(x)
    case Str(s) => EscapeString(s)
    case _ => "null"
  }

  /** An array from the texts of its elements; the three pads are space. */
  function ArrayText(ts: seq<string>, pad: string, sep: string, end: string): string {
    "[" + pad + Joined(ts, "," + sep) + end + "]"
  }

  function FieldText(key: string, t: string): string {
    EscapeString(key) + ": " + t
  }

  function FieldTexts(keys: seq<string>, ts: seq<string>): (texts: seq<string>)
    requires |keys| == |ts|
    ensures |texts| == |keys| && forall i | 0 <= i < |keys| :: texts[i] == FieldText(keys[i], ts[i])
  {
    seq(|keys|, i requires 0 <= i < |keys| => FieldText(keys[i], ts[i]))
  }

  function ObjectText(keys: seq<string>, ts: seq<string>, pad: string, sep: string, end: string): string
    requires |keys| == |ts|
  {
    "{" + pad + Joined(FieldTexts(keys, ts), "," + sep) + end + "}"
  }

  function ValuesOf(fields: map<string, Value>, keys: seq<string>): (vs: seq<Value>)
    requires forall k | k in keys :: k in fields
    ensures |vs| == |keys| && forall i | 0 <= i < |keys| :: keys[i] in fields && vs[i] == fields[keys[i]]
  {
    seq(|keys|, i requires 0 <= i < |keys| => assert keys[i] in keys; fields[keys[i]])
  }

  /** On a single line. */
  ghost function Inline(v: Value): string {
    match v
    case Arr(items) => ArrayText(seq(|items|, i requires 0 <= i < |items| => Inline(items[i])), "", " ", "")
    case Obj(fields) =>
      var keys := SortedKeys(fields.Keys);
      ObjectText(keys, seq(|keys|, i requires 0 <= i < |keys| => assert keys[i] in keys; Inline(fields[keys[i]])),
                 "", " ", "")
    case _ => ScalarText(v)
  }

  /** The canonical text of `v`, indented for this depth, with the fields named in `order` first. */
  ghost function Text(v: Value, depth: nat, order: seq<string>): string {
    match v
    case Arr(items) =>
      if items == [] then "[]"
      else if OneLine(items) then Inline(v)
      else
        ArrayText(seq(|items|, i requires 0 <= i < |items| => Text(items[i], depth + 1, [])),
                  NewLine(depth + 1), NewLine(depth + 1), NewLine(depth))
    case Obj(fields) =>
      if fields == map[] then "{}"
      else
        var keys := Entries(fields.Keys, order);
        ObjectText(keys,
                   seq(|keys|, i requires 0 <= i < |keys| => assert keys[i] in keys; Text(fields[keys[i]], depth + 1, [])),
                   NewLine(depth + 1), NewLine(depth + 1), NewLine(depth))
    case _ => ScalarText(v)
  }

  /** The texts of values, one by one. */
  ghost function InlineAll(vs: seq<Value>): (ts: seq<string>)
    ensures |ts| == |vs| && forall i | 0 <= i < |vs| :: ts[i] == Inline(vs[i])
  {
    seq(|vs|, i requires 0 <= i < |vs| => Inline(vs[i]))
  }

  ghost function TextAll(vs: seq<Value>, depth: nat): (ts: seq<string>)
    ensures |ts| == |vs| && forall i | 0 <= i < |vs| :: ts[i] == Text(vs[i], depth, [])
  {
    seq(|vs|, i requires 0 <= i < |vs| => Text(vs[i], depth, []))
  }

  lemma {:induction false} InlineArray(items: seq<Value>)
    ensures Inline(Arr(items)) == ArrayText(InlineAll(items), "", " ", "")
  {
    assert seq(|items|, i requires 0 <= i < |items| => Inline(items[i])) == InlineAll(items);
  }

  lemma {:induction false} InlineObject(fields: map<string, Value>)
    ensures var keys := SortedKeys(fields.Keys);
      Inline(Obj(fields)) == ObjectText(keys, InlineAll(ValuesOf(fields, keys)), "", " ", "")
  {
    var keys := SortedKeys(fields.Keys);
    assert seq(|keys|, i requires 0 <= i < |keys| => assert keys[i] in keys; Inline(fields[keys[i]]))
           == InlineAll(ValuesOf(fields, keys));
  }

  lemma {:induction false} TextArray(items: seq<Value>, depth: nat, order: seq<string>)
    requires items != [] && !OneLine(items)
    ensures Text(Arr(items), depth, order) ==
            ArrayText(TextAll(items, depth + 1), NewLine(depth + 1), NewLine(depth + 1), NewLine(depth))
  {
    assert seq(|items|, i requires 0 <= i < |items| => Text(items[i], depth + 1, [])) == TextAll(items, depth + 1);
  }

  lemma {:induction false} TextObject(fields: map<string, Value>, depth: nat, order: seq<string>)
    requires fields != map[]
    ensures var keys := Entries(fields.Keys, order);
      Text(Obj(fields), depth, order) ==
      ObjectText(keys, TextAll(ValuesOf(fields, keys), depth + 1), NewLine(depth + 1), NewLine(depth + 1),
                 NewLine(depth))
  {
    var keys := Entries(fields.Keys, order);
    assert seq(|keys|, i requires 0 <= i < |keys| => assert keys[i] in keys; Text(fields[keys[i]], depth + 1, []))
           == TextAll(ValuesOf(fields, keys), depth + 1);
  }

  /** What the file holds: the text of the root and one newline. */
  ghost function FileText(root: Value, order: seq<string>): string {
    Text(root, 0, order) + "\n"
  }
}
