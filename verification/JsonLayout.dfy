/**
 How a canonical file is laid out: what is escaped, in what order keys come, what stays on one line and how far each line
 is indented.
 */
module JsonLayout {
  import opened Json
  import opened JsonText
  import opened JsonMeanings

  // ----- escapes --------------------------------------------------------------------------------

  /** Only quotes, backslashes and control characters are escaped, control characters by two small hex digits. */
  predicate EscapedAs(c: char, s: string) {
    if c == '"' || c == '\\' then s == ['\\', c]
    else if c as int < 0x20 then
      |s| == 6 && s[..4] == "\\u00" && IsHex(s[4], c as int / 16) && IsHex(s[5], c as int % 16)
      && !('A' <= s[4] <= 'F') && !('A' <= s[5] <= 'F')
    else s == [c]
  }

  lemma EscapedMeans(c: char)
    ensures forall s :: EscapedAs(c, s) <==> s == Escaped(c)
  {
    forall s ensures EscapedAs(c, s) <==> s == Escaped(c) {
      if EscapedAs(c, s) && c != '"' && c != '\\' && c < ' ' {
        assert s == s[..4] + [s[4], s[5]];
      }
    }
  }

  // ----- the order of keys --------------------------------------------------------------------------

  /** They differ first at `n`, where `a` ends or has the smaller byte. */
  predicate LessAt(a: string, b: string, n: nat) {
    n <= |a| && n < |b| && a[..n] == b[..n] && (n < |a| ==> a[n] < b[n])
  }

  lemma {:induction false} KeyBeforeMeans(a: string, b: string)
    ensures KeyBefore(a, b) <==> exists n: nat :: LessAt(a, b, n)
  {
    if KeyBefore(a, b) {
      var n := DiffersAt(a, b);
    }
    if n: nat :| LessAt(a, b, n) {
      LessComesBefore(a, b, n);
    }
  }

  lemma {:induction false} DiffersAt(a: string, b: string) returns (n: nat)
    requires KeyBefore(a, b)
    ensures LessAt(a, b, n)
  {
    if a == [] || a[0] < b[0] {
      n := 0;
    } else {
      var k := DiffersAt(a[1..], b[1..]);
      n := k + 1;
      assert a[..n] == [a[0]] + a[1..][..k] && b[..n] == [b[0]] + b[1..][..k];
    }
  }

  lemma {:induction false} LessComesBefore(a: string, b: string, n: nat)
    requires LessAt(a, b, n)
    ensures KeyBefore(a, b)
    decreases n
  {
    if 0 < n {
      assert a[0] == a[..n][0] == b[..n][0] == b[0];
      assert a[1..][..n - 1] == a[..n][1..] && b[1..][..n - 1] == b[..n][1..];
      LessComesBefore(a[1..], b[1..], n - 1);
    }
  }

  lemma {:induction false} KeysAscend(s: set<string>, i: nat, j: nat)
    requires i < j < |SortedKeys(s)|
    ensures exists n: nat :: LessAt(SortedKeys(s)[i], SortedKeys(s)[j], n)
    decreases s
  {
    var least := Least(s);
    if i == 0 {
      var others := SortedKeys(s - {least});
      assert SortedKeys(s)[j] == others[j - 1] && others[j - 1] in others;
      KeyBeforeMeans(least, others[j - 1]);
    } else {
      var others := SortedKeys(s - {least});
      KeysAscend(s - {least}, i - 1, j - 1);
      var n: nat :| LessAt(others[i - 1], others[j - 1], n);
      assert SortedKeys(s) == [least] + others;
      assert LessAt(SortedKeys(s)[i], SortedKeys(s)[j], n);
    }
  }

  lemma {:induction false} HoistedInOrder(keys: set<string>, order: seq<string>, i: nat, j: nat)
    requires i < j < |Hoisted(keys, order)|
    ensures exists a, b :: 0 <= a < b < |order| && order[a] == Hoisted(keys, order)[i]
                           && order[b] == Hoisted(keys, order)[j]
  {
    var n := |order| - 1;
    var rest := Hoisted(keys, order[..n]);
    if j < |rest| {
      HoistedInOrder(keys, order[..n], i, j);
    } else {
      assert rest[i] in rest;
      var a :| 0 <= a < n && order[..n][a] == rest[i];
    }
  }

  /** The keys of an object: those of the order given come first, as it gives them; the others ascend byte by byte. */
  lemma {:induction false} EntriesInOrder(keys: set<string>, order: seq<string>, i: nat, j: nat)
    requires i < j < |Entries(keys, order)|
    ensures var x, y := Entries(keys, order)[i], Entries(keys, order)[j];
      || (exists a, b :: 0 <= a < b < |order| && order[a] == x && order[b] == y)
      || (x in order && y !in order)
      || (x !in order && y !in order && exists n: nat :: LessAt(x, y, n))
  {
    var front, back := Hoisted(keys, order), SortedKeys(keys - set k | k in order);
    if j < |front| {
      HoistedInOrder(keys, order, i, j);
    } else {
      assert Entries(keys, order)[j] == back[j - |front|] && back[j - |front|] in back;
      if i < |front| {
        assert front[i] in front;
      } else {
        assert back[i - |front|] in back;
        KeysAscend(keys - (set k | k in order), i - |front|, j - |front|);
      }
    }
  }

  // ----- lines ------------------------------------------------------------------------------------------

  function Blank(n: nat): string {
    if n == 0 then "" else " " + Blank(n - 1)
  }

  /** Each on a line of its own, with a comma after all but the last. */
  function Rows(rows: seq<string>, indent: nat): string {
    if rows == [] then ""
    else "\n" + (Blank(indent) + (rows[0] + ((if |rows| == 1 then "" else ",") + Rows(rows[1..], indent))))
  }

  lemma {:induction false} BlankIs(n: nat)
    ensures Spaces(n) == Blank(n)
  {
    if 0 < n {
      BlankIs(n - 1);
      assert Spaces(n) == " " + Spaces(n - 1);
    }
  }

  lemma {:induction false} RowsJoin(rows: seq<string>, last: string, indent: nat, line: string)
    requires rows != [] && line == "\n" + Blank(indent)
    ensures Rows(rows + [last], indent) == Rows(rows, indent) + "," + (line + last)
    decreases |rows|
  {
    assert (rows + [last])[1..] == rows[1..] + [last] && (rows + [last])[0] == rows[0];
    if |rows| == 1 {
      assert rows[1..] + [last] == [last] && [last][1..] == [];
      OneRow(rows[0], last, indent, line);
    } else {
      RowsJoin(rows[1..], last, indent, line);
      NextRow(rows[0], Rows(rows[1..], indent), line + last, indent);
    }
  }

  lemma OneRow(row: string, last: string, indent: nat, line: string)
    requires line == "\n" + Blank(indent)
    ensures "\n" + (Blank(indent) + (row + ("," + ("\n" + (Blank(indent) + (last + ("" + ""))))))) ==
            "\n" + (Blank(indent) + (row + ("" + ""))) + "," + (line + last)
  {
  }

  lemma NextRow(row: string, rest: string, next: string, indent: nat)
    ensures "\n" + (Blank(indent) + (row + ("," + (rest + "," + next)))) ==
            "\n" + (Blank(indent) + (row + ("," + rest))) + "," + next
  {
  }

  lemma {:induction false} JoinedRows(rows: seq<string>, indent: nat, line: string)
    requires rows != [] && line == "\n" + Blank(indent)
    ensures line + Joined(rows, "," + line) == Rows(rows, indent)
    decreases |rows|
  {
    var n := |rows| - 1;
    if n == 0 {
      assert rows[1..] == [];
      assert line + rows[0] == "\n" + (Blank(indent) + (rows[0] + ("" + "")));
    } else {
      JoinedRows(rows[..n], indent, line);
      RowsJoin(rows[..n], rows[n], indent, line);
      assert rows[..n] + [rows[n]] == rows;
      Tail(line, Joined(rows[..n], "," + line), rows[n]);
    }
  }

  lemma Tail(line: string, joined: string, last: string)
    ensures line + (joined + ("," + line) + last) == line + joined + "," + (line + last)
  {
  }

  lemma {:induction false} Block(open: string, rows: seq<string>, close: string, depth: nat)
    requires rows != []
    ensures open + NewLine(depth + 1) + Joined(rows, "," + NewLine(depth + 1)) + NewLine(depth) + close ==
            open + Rows(rows, 2 * depth + 2) + ("\n" + Blank(2 * depth)) + close
  {
    BlankIs(2 * depth + 2);
    BlankIs(2 * depth);
    JoinedRows(rows, 2 * depth + 2, NewLine(depth + 1));
    assert open + NewLine(depth + 1) + Joined(rows, "," + NewLine(depth + 1)) ==
           open + (NewLine(depth + 1) + Joined(rows, "," + NewLine(depth + 1)));
  }

  /** An array takes a line for each element, two spaces deeper than its brackets. */
  lemma {:induction false} ArrayLines(items: seq<Value>, depth: nat, order: seq<string>)
    requires items != [] && !OneLine(items)
    ensures Text(Arr(items), depth, order) ==
            "[" + Rows(TextAll(items, depth + 1), 2 * depth + 2) + ("\n" + Blank(2 * depth)) + "]"
  {
    TextArray(items, depth, order);
    Block("[", TextAll(items, depth + 1), "]", depth);
  }

  /** So does an object for each key, which is followed by a colon and a space. */
  lemma {:induction false} ObjectLines(fields: map<string, Value>, depth: nat, order: seq<string>, rows: seq<string>)
    requires fields != map[] && |rows| == |Entries(fields.Keys, order)|
    requires forall i | 0 <= i < |rows| ::
      var key := Entries(fields.Keys, order)[i];
      key in fields && rows[i] == EscapeString(key) + ": " + Text(fields[key], depth + 1, [])
    ensures Text(Obj(fields), depth, order) == "{" + Rows(rows, 2 * depth + 2) + ("\n" + Blank(2 * depth)) + "}"
  {
    var keys := Entries(fields.Keys, order);
    TextObject(fields, depth, order);
    var texts := FieldTexts(keys, TextAll(ValuesOf(fields, keys), depth + 1));
    assert texts == rows;
    assert keys != [] by {
      var k :| k in fields;
      assert k in keys;
    }
    Block("{", rows, "}", depth);
  }

  /** On one line go arrays that begin with a number and hold numbers, with one object after them at most. */
  lemma {:induction false} OneLineMeans(items: seq<Value>)
    ensures OneLine(items) <==>
      exists k | 0 < k <= |items| ::
        (forall i | 0 <= i < k :: IsNumber(items[i])) && (items[k..] == [] || (|items| == k + 1 && items[k].Obj?))
  {
    if OneLine(items) {
      var k := if IsNumber(items[|items| - 1]) then |items| else |items| - 1;
      assert 0 < k && (items[k..] == [] || |items| == k + 1);
    }
  }
}
