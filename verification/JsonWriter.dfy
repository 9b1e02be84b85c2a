/**
 The writer as it runs: text appended piece by piece, line by line. What it leaves is the canonical text, and
 it reports any number that is not finite.
 */
module JsonWriter {
  import opened Options
  import opened Json
  import opened JsonText

  lemma {:induction false} LeastIsOne(s: set<string>, k: string)
    requires s != {} && IsLeast(s, k)
    ensures k == Least(s)
  {
    if k != Least(s) {
      KeyTotal(k, Least(s));
    }
  }

  /** The keys of an object as its map has them, ascending. */
  method Ascending(s: set<string>) returns (keys: seq<string>)
    ensures keys == SortedKeys(s)
  {
    keys := [];
    var todo := s;
    while todo != {}
      invariant keys + SortedKeys(todo) == SortedKeys(s)
    {
      ghost var least := HasLeast(todo);
      var k :| k in todo && forall j | j in todo && j != k :: KeyBefore(k, j);
      LeastIsOne(todo, k);
      assert keys + [k] + SortedKeys(todo - {k}) == keys + SortedKeys(todo);
      keys := keys + [k];
      todo := todo - {k};
    }
    assert keys + [] == keys;
  }

  /** Hoisted keys as they are named, then the others ascending. */
  method EntriesOf(fields: map<string, Value>, order: seq<string>) returns (entries: seq<string>)
    ensures entries == Entries(fields.Keys, order)
  {
    entries := [];
    for i := 0 to |order|
      invariant entries == Hoisted(fields.Keys, order[..i])
    {
      assert order[..i + 1][..i] == order[..i];
      if order[i] in fields {
        entries := entries + [order[i]];
      }
    }
    assert order[..|order|] == order;
    var others := Ascending(fields.Keys - set k | k in order);
    entries := entries + others;
  }

  lemma Glue(a: string, b: string, c: string)
    ensures a + b + c == a + (b + c)
  {
  }

  lemma Glue3(a: string, b: string, c: string, d: string)
    ensures a + b + c + d == a + (b + c + d)
  {
  }

  function Piece(first: bool, t: string): string {
    if first then t else ", " + t
  }

  /** What stands on a single line after `i` elements. */
  function Row(ts: seq<string>, i: nat): string
    requires i <= |ts|
  {
    Joined(ts[..i], ", ")
  }

  lemma {:induction false} NextInRow(base: string, ts: seq<string>, i: nat)
    requires i < |ts|
    ensures base + Row(ts, i) + Piece(i == 0, ts[i]) == base + Row(ts, i + 1)
  {
    if i == 0 {
      assert ts[..1] == [ts[0]] && ts[..0] == [];
      assert base + "" == base;
    } else {
      assert ts[..i + 1][..i] == ts[..i];
      assert Row(ts, i + 1) == Row(ts, i) + ", " + ts[i];
      Glue3(base, Row(ts, i), ", ", ts[i]);
      Glue(base + Row(ts, i), ", ", ts[i]);
    }
  }

  lemma {:induction false} WholeRow(base: string, open: string, xs: seq<string>, close: string)
    ensures base + open + Joined(xs, ", ") + close == base + (open + "" + Joined(xs, "," + " ") + "" + close)
  {
    assert "," + " " == ", ";
  }

  function LineEnd(last: bool): string {
    if last then "\n" else ",\n"
  }

  function Line(pad: string, t: string, last: bool): string {
    pad + t + LineEnd(last)
  }

  /** What stands after `i` lines. */
  function Lines(ts: seq<string>, i: nat, pad: string): string
    requires i <= |ts|
  {
    if i == 0 then "\n" else "\n" + pad + Joined(ts[..i], ",\n" + pad) + LineEnd(i == |ts|)
  }

  lemma FirstLine(base: string, pad: string, t: string, end: string)
    ensures base + "\n" + (pad + t + end) == base + ("\n" + pad + t + end)
  {
  }

  lemma LineAfter(base: string, head: string, joined: string, pad: string, t: string, end: string)
    ensures base + (head + joined + ",\n") + (pad + t + end) == base + (head + (joined + (",\n" + pad) + t) + end)
  {
  }

  lemma {:induction false} JoinedNext(ts: seq<string>, i: nat, glue: string)
    requires i < |ts|
    ensures Joined(ts[..i + 1], glue) == if i == 0 then ts[0] else Joined(ts[..i], glue) + glue + ts[i]
  {
    assert ts[..i + 1][..i] == ts[..i];
  }

  lemma {:induction false} NextLine(base: string, ts: seq<string>, i: nat, pad: string)
    requires i < |ts|
    ensures base + Lines(ts, i, pad) + Line(pad, ts[i], i + 1 == |ts|) == base + Lines(ts, i + 1, pad)
  {
    var end := LineEnd(i + 1 == |ts|);
    JoinedNext(ts, i, ",\n" + pad);
    if i == 0 {
      FirstLine(base, pad, ts[0], end);
    } else {
      LineAfter(base, "\n" + pad, Joined(ts[..i], ",\n" + pad), pad, ts[i], end);
    }
  }

  lemma CloseLines(base: string, open: string, pad: string, joined: string, indent: string, close: string)
    ensures base + open + ("\n" + pad + joined + "\n") + indent + close ==
            base + (open + ("\n" + pad) + joined + ("\n" + indent) + close)
  {
  }

  /** All lines, with what opens and closes them, are the text of an array or an object. */
  lemma {:induction false} AllLines(base: string, open: string, ts: seq<string>, depth: nat, close: string)
    requires ts != []
    ensures base + open + Lines(ts, |ts|, Spaces((depth + 1) * 2)) + Spaces(depth * 2) + close ==
            base + (open + NewLine(depth + 1) + Joined(ts, "," + NewLine(depth + 1)) + NewLine(depth) + close)
  {
    var pad, glue := Spaces((depth + 1) * 2), "," + NewLine(depth + 1);
    assert ts[..|ts|] == ts;
    assert ",\n" + pad == glue;
    CloseLines(base, open, pad, Joined(ts, glue), Spaces(depth * 2), close);
  }

  lemma {:induction false} FiniteFields(fields: map<string, Value>, keys: seq<string>)
    requires forall k :: k in keys <==> k in fields
    ensures (forall j | 0 <= j < |keys| :: Finite(ValuesOf(fields, keys)[j])) <==> Finite(Obj(fields))
  {
    if forall j | 0 <= j < |keys| :: Finite(ValuesOf(fields, keys)[j]) {
      forall k | k in fields ensures Finite(fields[k]) {
        var i :| 0 <= i < |keys| && keys[i] == k;
        assert Finite(ValuesOf(fields, keys)[i]);
      }
    }
  }

  /** Calls up what is known of element `i` of a row. */
  predicate At(i: int) {
    true
  }

  class Writer {
    var out: string
    var ok: bool

    constructor ()
      ensures out == "" && ok
    {
      out, ok := "", true;
    }

    method Append(s: string)
      modifies `out
      ensures out == old(out) + s
    {
      out := out + s;
    }

    method Scalar(v: Value)
      requires !v.Arr? && !v.Obj?
      modifies this
      ensures out == old(out) + ScalarText(v) && ok == (old(ok) && Finite(v))
    {
      if v.NotFinite? {
        ok := false;
      }
      Append(ScalarText(v));
    }

    /** Everything on one line. */
    method WriteInline(v: Value)
      modifies this
      ensures out == old(out) + Inline(v) && ok == (old(ok) && Finite(v))
      decreases v, 2
    {
      match v {
        case Arr(items) => WriteInlineArray(items, v);
        case Obj(fields) => WriteInlineObject(fields, v);
        case _ => Scalar(v);
      }
    }

    method WriteInlineItem(v: Value, first: bool, ghost t: string)
      requires t == Inline(v)
      modifies this
      ensures out == old(out) + Piece(first, t) && ok == (old(ok) && Finite(v))
      decreases v, 4
    {
      ghost var base := out;
      if !first {
        Append(", ");
      }
      WriteInline(v);
      Glue(base, ", ", t);
    }

    method WriteInlineField(key: string, v: Value, first: bool, ghost t: string)
      requires t == FieldText(key, Inline(v))
      modifies this
      ensures out == old(out) + Piece(first, t) && ok == (old(ok) && Finite(v))
      decreases v, 4
    {
      ghost var base := out;
      if !first {
        Append(", ");
      }
      ghost var before := out;
      Append(EscapeString(key));
      Append(": ");
      WriteInline(v);
      Glue3(before, EscapeString(key), ": ", Inline(v));
      Glue(base, ", ", t);
    }

    /** The elements of a single line, after what opens it. */
    method WriteInlineItems(items: seq<Value>, ghost whole: Value, ghost ts: seq<string>)
      requires whole == Arr(items) && |ts| == |items| && forall i | 0 <= i < |ts| :: ts[i] == Inline(items[i])
      modifies this
      ensures out == old(out) + Joined(ts, ", ") && ok == (old(ok) && Finite(whole))
      decreases whole, 0
    {
      ghost var base := out;
      for i := 0 to |items|
        invariant out == base + Row(ts, i)
        invariant ok == (old(ok) && forall j | 0 <= j < i :: Finite(items[j]))
      {
        WriteInlineItem(items[i], i == 0, ts[i]);
        NextInRow(base, ts, i);
      }
      assert ts[..|ts|] == ts;
    }

    method WriteInlineArray(items: seq<Value>, ghost whole: Value)
      requires whole == Arr(items)
      modifies this
      ensures out == old(out) + Inline(whole) && ok == (old(ok) && Finite(whole))
      decreases whole, 1
    {
      ghost var base, ts := out, InlineAll(items);
      Append("[");
      WriteInlineItems(items, whole, ts);
      Append("]");
      WholeRow(base, "[", ts, "]");
      InlineArray(items);
    }

    method WriteInlineFields(keys: seq<string>, vs: seq<Value>, ghost whole: Value, ghost xs: seq<string>)
      requires |keys| == |vs| == |xs| && forall i | 0 <= i < |vs| :: vs[i] < whole
      requires forall i {:trigger At(i)} | 0 <= i < |xs| :: xs[i] == FieldText(keys[i], Inline(vs[i]))
      modifies this
      ensures out == old(out) + Joined(xs, ", ")
      ensures ok == (old(ok) && forall j | 0 <= j < |vs| :: Finite(vs[j]))
      decreases whole, 0
    {
      ghost var base := out;
      for i := 0 to |keys|
        invariant out == base + Row(xs, i)
        invariant ok == (old(ok) && forall j | 0 <= j < i :: Finite(vs[j]))
      {
        assert At(i);
        WriteInlineField(keys[i], vs[i], i == 0, xs[i]);
        NextInRow(base, xs, i);
      }
      assert xs[..|xs|] == xs;
    }

    method WriteInlineObject(fields: map<string, Value>, ghost whole: Value)
      requires whole == Obj(fields)
      modifies this
      ensures out == old(out) + Inline(whole) && ok == (old(ok) && Finite(whole))
      decreases whole, 1
    {
      var keys := Ascending(fields.Keys);
      var vs := ValuesOf(fields, keys);
      ghost var base, ts := out, InlineAll(vs);
      Append("{");
      WriteInlineFields(keys, vs, whole, FieldTexts(keys, ts));
      Append("}");
      WholeRow(base, "{", FieldTexts(keys, ts), "}");
      InlineObject(fields);
      FiniteFields(fields, keys);
    }

    method Indent(depth: nat)
      modifies `out
      ensures out == old(out) + Spaces(depth * 2)
    {
      Append(Spaces(depth * 2));
    }

    /** The canonical form, over as many lines as it takes. */
    method WriteValue(v: Value, depth: nat, order: seq<string>)
      modifies this
      ensures out == old(out) + Text(v, depth, order) && ok == (old(ok) && Finite(v))
      decreases v, 3
    {
      match v {
        case Arr(items) => WriteArray(items, depth, order, v);
        case Obj(fields) => WriteObject(fields, depth, order, v);
        case _ => Scalar(v);
      }
    }

    method WriteLine(v: Value, depth: nat, last: bool, ghost t: string)
      requires t == Text(v, depth, [])
      modifies this
      ensures out == old(out) + Line(Spaces(depth * 2), t, last) && ok == (old(ok) && Finite(v))
      decreases v, 4
    {
      ghost var base := out;
      Indent(depth);
      WriteValue(v, depth, []);
      Append(LineEnd(last));
      Glue3(base, Spaces(depth * 2), t, LineEnd(last));
    }

    method WriteFieldLine(key: string, v: Value, depth: nat, last: bool, ghost t: string)
      requires t == FieldText(key, Text(v, depth, []))
      modifies this
      ensures out == old(out) + Line(Spaces(depth * 2), t, last) && ok == (old(ok) && Finite(v))
      decreases v, 4
    {
      ghost var base := out;
      Indent(depth);
      ghost var before := out;
      Append(EscapeString(key));
      Append(": ");
      WriteValue(v, depth, []);
      Glue3(before, EscapeString(key), ": ", Text(v, depth, []));
      Append(LineEnd(last));
      Glue3(base, Spaces(depth * 2), t, LineEnd(last));
    }

    method WriteLines(items: seq<Value>, depth: nat, ghost whole: Value, ghost ts: seq<string>)
      requires whole == Arr(items) && |ts| == |items|
      requires forall i | 0 <= i < |ts| :: ts[i] == Text(items[i], depth, [])
      modifies this
      ensures out == old(out) + Lines(ts, |ts|, Spaces(depth * 2)) && ok == (old(ok) && Finite(whole))
      decreases whole, 0
    {
      ghost var base, pad := out, Spaces(depth * 2);
      Append("\n");
      for i := 0 to |items|
        invariant out == base + Lines(ts, i, pad)
        invariant ok == (old(ok) && forall j | 0 <= j < i :: Finite(items[j]))
      {
        WriteLine(items[i], depth, i + 1 == |items|, ts[i]);
        NextLine(base, ts, i, pad);
      }
    }

    method WriteArray(items: seq<Value>, depth: nat, ghost order: seq<string>, ghost whole: Value)
      requires whole == Arr(items)
      modifies this
      ensures out == old(out) + Text(whole, depth, order) && ok == (old(ok) && Finite(whole))
      decreases whole, 2
    {
      if items == [] {
        Append("[]");
        return;
      }
      if OneLine(items) {
        WriteInlineArray(items, whole);
        return;
      }
      ghost var base, ts := out, TextAll(items, depth + 1);
      Append("[");
      WriteLines(items, depth + 1, whole, ts);
      Indent(depth);
      Append("]");
      AllLines(base, "[", ts, depth, "]");
      TextArray(items, depth, order);
    }

    method WriteFieldLines(keys: seq<string>, vs: seq<Value>, depth: nat, ghost whole: Value, ghost xs: seq<string>)
      requires |keys| == |vs| == |xs| && forall i | 0 <= i < |vs| :: vs[i] < whole
      requires forall i {:trigger At(i)} | 0 <= i < |xs| :: xs[i] == FieldText(keys[i], Text(vs[i], depth, []))
      modifies this
      ensures out == old(out) + Lines(xs, |xs|, Spaces(depth * 2))
      ensures ok == (old(ok) && forall j | 0 <= j < |vs| :: Finite(vs[j]))
      decreases whole, 0
    {
      ghost var base, pad := out, Spaces(depth * 2);
      Append("\n");
      for i := 0 to |keys|
        invariant out == base + Lines(xs, i, pad)
        invariant ok == (old(ok) && forall j | 0 <= j < i :: Finite(vs[j]))
      {
        assert At(i);
        WriteFieldLine(keys[i], vs[i], depth, i + 1 == |keys|, xs[i]);
        NextLine(base, xs, i, pad);
      }
    }

    method WriteObject(fields: map<string, Value>, depth: nat, order: seq<string>, ghost whole: Value)
      requires whole == Obj(fields)
      modifies this
      ensures out == old(out) + Text(whole, depth, order) && ok == (old(ok) && Finite(whole))
      decreases whole, 2
    {
      if fields == map[] {
        Append("{}");
        return;
      }
      var keys := EntriesOf(fields, order);
      var vs := ValuesOf(fields, keys);
      ghost var base, ts := out, TextAll(vs, depth + 1);
      ghost var xs := FieldTexts(keys, ts);
      Append("{");
      WriteFieldLines(keys, vs, depth + 1, whole, xs);
      Indent(depth);
      Append("}");
      SomeKey(fields, keys);
      AllLines(base, "{", xs, depth, "}");
      TextObject(fields, depth, order);
      FiniteFields(fields, keys);
    }
  }

  lemma SomeKey(fields: map<string, Value>, keys: seq<string>)
    requires fields != map[] && forall k :: k in keys <==> k in fields
    ensures keys != []
  {
    var k :| k in fields;
    assert k in keys;
  }

  /** The canonical file of a value, or nothing if a number in it is not finite. */
  method WriteCanonical(root: Value, order: seq<string>) returns (text: Option<string>)
    ensures text == if Finite(root) then Some(FileText(root, order)) else None
  {
    var writer := new Writer();
    writer.WriteValue(root, 0, order);
    if !writer.ok {
      return None;
    }
    assert "" + Text(root, 0, order) == Text(root, 0, order);
    return Some(writer.out + "\n");
  }
}
