/**
 JSON by its productions: the trees a text is made of, the text of each and what it stands for. A text is read if and
 only if it is the text of such a tree, and what is read is what the tree stands for. The productions are those of
 RFC 8259, with these liberties: a byte order mark may come first, a number may lack the digits on one side of its point
 and may have more zeros before it than it needs, a surrogate may stand alone, and bytes from 128 up are not checked.
 */
module JsonSyntax {
  import opened Options
  import opened Json
  import opened JsonNumbers
  import opened JsonGrammar
  import opened JsonRoundTrip
  import opened JsonMeanings
  import opened JsonPieces

  // ----- trees ----------------------------------------------------------------------------------

  datatype Syntax =
    | Name(word: string)
    | Number(token: Token, mark: char, plus: bool)
    | Quoted(pieces: seq<Piece>)
    | NoItems(space: string)
    | Array(items: Items)
    | NoFields(space: string)
    | Object(fields: Fields)

  datatype Items =
    | LastItem(before: string, item: Syntax, after: string)
    | MoreItems(before: string, item: Syntax, after: string, rest: Items)

  datatype Key = Key(before: string, pieces: seq<Piece>, gap: string, pad: string)

  datatype Fields =
    | LastField(key: Key, item: Syntax, after: string)
    | MoreFields(key: Key, item: Syntax, after: string, rest: Fields)

  // ----- their text -----------------------------------------------------------------------------

  function Then(t: Syntax, tail: string): string {
    match t
    case Name(word) => word + tail
    case Number(token, mark, plus) => NumberText(token, mark, plus) + tail
    case Quoted(pieces) => QuotedThen(pieces, tail)
    case NoItems(space) => "[" + (space + ("]" + tail))
    case Array(items) => "[" + ItemsThen(items, "]" + tail)
    case NoFields(space) => "{" + (space + ("}" + tail))
    case Object(fields) => "{" + FieldsThen(fields, "}" + tail)
  }

  function ItemsThen(items: Items, tail: string): string {
    match items
    case LastItem(before, item, after) => before + Then(item, after + tail)
    case MoreItems(before, item, after, rest) => before + Then(item, after + ("," + ItemsThen(rest, tail)))
  }

  function KeyThen(key: Key, tail: string): string {
    key.before + QuotedThen(key.pieces, key.gap + (":" + (key.pad + tail)))
  }

  function FieldsThen(fields: Fields, tail: string): string {
    match fields
    case LastField(key, item, after) => KeyThen(key, Then(item, after + tail))
    case MoreFields(key, item, after, rest) => KeyThen(key, Then(item, after + ("," + FieldsThen(rest, tail))))
  }

  // ----- which of them are proper -----------------------------------------------------------------

  /** Arrays and objects nest 64 deep at most. */
  predicate Fits(t: Syntax, depth: nat) {
    && depth <= 64
    && match t
       case Name(word) => word in {"null", "true", "false"}
       case Number(token, mark, _) => Spells(token, mark) && !Blank(token)
       case Quoted(pieces) => PiecesFit(pieces)
       case NoItems(space) => AllSpace(space)
       case Array(items) => ItemsFit(items, depth + 1)
       case NoFields(space) => AllSpace(space)
       case Object(fields) => FieldsFit(fields, depth + 1)
  }

  predicate ItemsFit(items: Items, depth: nat) {
    AllSpace(items.before) && AllSpace(items.after) && Fits(items.item, depth)
    && (items.MoreItems? ==> ItemsFit(items.rest, depth))
  }

  predicate KeyFits(key: Key) {
    AllSpace(key.before) && PiecesFit(key.pieces) && AllSpace(key.gap) && AllSpace(key.pad)
  }

  predicate FieldsFit(fields: Fields, depth: nat) {
    KeyFits(fields.key) && AllSpace(fields.after) && Fits(fields.item, depth)
    && (fields.MoreFields? ==> FieldsFit(fields.rest, depth))
  }

  // ----- what they stand for ------------------------------------------------------------------------

  /** Whole numbers of 64 bits are integers; all others are reals. */
  function NumberMeaning(t: Token): Value
    requires Digital(t)
  {
    if !t.point && !t.marked && FitsInt64(SignedInt(t)) then Int(SignedInt(t)) else Real(DecimalValue(t))
  }

  function Meaning(t: Syntax, depth: nat): Value
    requires Fits(t, depth)
  {
    match t
    case Name(word) => if word == "null" then Null else Bool(word == "true")
    case Number(token, _, _) => NumberMeaning(token)
    case Quoted(pieces) => Str(Bytes(pieces))
    case NoItems(_) => Arr([])
    case Array(items) => Arr(Values(items, depth + 1))
    case NoFields(_) => Obj(map[])
    case Object(fields) => Obj(Entries(fields, depth + 1, map[]))
  }

  function Values(items: Items, depth: nat): seq<Value>
    requires ItemsFit(items, depth)
  {
    match items
    case LastItem(_, item, _) => [Meaning(item, depth)]
    case MoreItems(_, item, _, rest) => [Meaning(item, depth)] + Values(rest, depth)
  }

  /** A key that comes again takes the place of the one before. */
  function Entries(fields: Fields, depth: nat, before: map<string, Value>): map<string, Value>
    requires FieldsFit(fields, depth)
  {
    var read := before[Bytes(fields.key.pieces) := Meaning(fields.item, depth)];
    match fields
    case LastField(_, _, _) => read
    case MoreFields(_, _, _, rest) => Entries(rest, depth, read)
  }

  // ----- every tree is read -------------------------------------------------------------------------

  /** How a value begins. */
  predicate Starts(s: string) {
    s != [] && (IsDigit(s[0]) || s[0] in {'"', '[', '{', 't', 'f', 'n', '-', '.'})
  }

  lemma StartsRight(t: Syntax, depth: nat, tail: string)
    requires Fits(t, depth)
    ensures Starts(Then(t, tail))
  {
  }

  lemma {:induction false} NumberReads(token: Token, mark: char, plus: bool, depth: nat, tail: string)
    requires depth <= 64 && Spells(token, mark) && !Blank(token) && Ends(tail)
    ensures ReadValue(NumberText(token, mark, plus) + tail, depth) == Parsed(NumberMeaning(token), tail)
  {
    NumberScans(token, mark, plus, tail);
    NumberIs(token);
    OnlyNumber(NumberText(token, mark, plus) + tail, depth);
  }

  lemma NumberIs(t: Token)
    requires Digital(t) && (t.digits != [] || t.point)
    ensures NumberValue(t) == if Blank(t) then None else Some(NumberMeaning(t))
  {
  }

  lemma OnlyNumber(s: string, depth: nat)
    requires depth <= 64 && s != [] && (IsDigit(s[0]) || s[0] in {'-', '.'})
    ensures ReadValue(s, depth) == ReadScalarNumber(s)
  {
  }

  lemma {:induction false} Accepted(t: Syntax, depth: nat, tail: string)
    requires Fits(t, depth) && Ends(tail)
    ensures ReadValue(Then(t, tail), depth) == Parsed(Meaning(t, depth), tail)
    decreases t, 0
  {
    match t
    case Name(word) => NameReads(word, depth, tail);
    case Number(token, mark, plus) => NumberReads(token, mark, plus, depth, tail);
    case Quoted(pieces) => QuotedReads(pieces, depth, tail);
    case NoItems(space) => NoItemsRead(space, depth, tail);
    case Array(items) => ArrayAccepted(items, depth, tail);
    case NoFields(space) => NoFieldsRead(space, depth, tail);
    case Object(fields) => ObjectAccepted(fields, depth, tail);
  }

  lemma {:induction false} ArrayAccepted(items: Items, depth: nat, tail: string)
    requires Fits(Array(items), depth)
    ensures ReadValue(Then(Array(items), tail), depth) == Parsed(Meaning(Array(items), depth), tail)
    decreases items, 2
  {
    ItemsAccepted(items, depth, [], tail);
    ArrayReads(ItemsThen(items, "]" + tail), depth);
    assert [] + Values(items, depth + 1) == Values(items, depth + 1);
  }

  lemma {:induction false} ObjectAccepted(fields: Fields, depth: nat, tail: string)
    requires Fits(Object(fields), depth)
    ensures ReadValue(Then(Object(fields), tail), depth) == Parsed(Meaning(Object(fields), depth), tail)
    decreases fields, 2
  {
    FieldsAccepted(fields, depth, map[], tail);
    ObjectReads(FieldsThen(fields, "}" + tail), depth);
  }

  lemma {:induction false} NameReads(word: string, depth: nat, tail: string)
    requires Fits(Name(word), depth)
    ensures ReadValue(word + tail, depth) == Parsed(Meaning(Name(word), depth), tail)
  {
    LiteralReadsBack(word, Meaning(Name(word), depth), tail);
  }

  lemma {:induction false} NoItemsRead(space: string, depth: nat, tail: string)
    requires depth <= 64 && AllSpace(space)
    ensures ReadValue("[" + (space + ("]" + tail)), depth) == Parsed(Arr([]), tail)
  {
    SkipPad(space, "]" + tail);
    assert ("[" + (space + ("]" + tail)))[1..] == space + ("]" + tail) && ("]" + tail)[1..] == tail;
  }

  lemma {:induction false} NoFieldsRead(space: string, depth: nat, tail: string)
    requires depth <= 64 && AllSpace(space)
    ensures ReadValue("{" + (space + ("}" + tail)), depth) == Parsed(Obj(map[]), tail)
  {
    SkipPad(space, "}" + tail);
    assert ("{" + (space + ("}" + tail)))[1..] == space + ("}" + tail) && ("}" + tail)[1..] == tail;
  }

  lemma {:induction false} QuotedReads(pieces: seq<Piece>, depth: nat, tail: string)
    requires depth <= 64 && PiecesFit(pieces)
    ensures ReadValue(QuotedThen(pieces, tail), depth) == Parsed(Str(Bytes(pieces)), tail)
  {
    StringReads(pieces, [], tail);
    assert QuotedThen(pieces, tail)[1..] == PiecesThen(pieces, "\"" + tail);
    assert [] + Bytes(pieces) == Bytes(pieces);
  }

  lemma {:induction false} ArrayReads(s: string, depth: nat)
    requires depth <= 64 && SkipSpace(s) != [] && SkipSpace(s)[0] != ']'
    ensures ReadValue("[" + s, depth) == ReadItems(s, depth, [])
  {
    Behind('[', s);
    ReadOnceI(s, depth);
  }

  lemma {:induction false} ObjectReads(s: string, depth: nat)
    requires depth <= 64 && SkipSpace(s) != [] && SkipSpace(s)[0] != '}'
    ensures ReadValue("{" + s, depth) == ReadFields(s, depth, map[])
  {
    Behind('{', s);
    ReadOnceF(s, depth);
  }

  lemma Behind(c: char, s: string)
    ensures ([c] + s)[1..] == s
  {
  }

  lemma {:induction false} ItemsAccepted(items: Items, depth: nat, read: seq<Value>, tail: string)
    requires ItemsFit(items, depth + 1)
    ensures ReadItems(ItemsThen(items, "]" + tail), depth, read) == Parsed(Arr(read + Values(items, depth + 1)), tail)
    ensures Starts(SkipSpace(ItemsThen(items, "]" + tail)))
    decreases items, 0
  {
    var v := Meaning(items.item, depth + 1);
    match items
    case LastItem(before, item, after) =>
      ItemAccepted(before, item, after, depth, "]" + tail);
      assert ("]" + tail)[1..] == tail;
      assert Values(items, depth + 1) == [v];
    case MoreItems(before, item, after, rest) =>
      var next := ItemsThen(rest, "]" + tail);
      ItemAccepted(before, item, after, depth, "," + next);
      assert ("," + next)[1..] == next;
      ItemsAccepted(rest, depth, read + [v], tail);
      Collected(read, v, Values(rest, depth + 1));
  }

  lemma Collected(read: seq<Value>, v: Value, vs: seq<Value>)
    ensures read + [v] + vs == read + ([v] + vs)
  {
  }

  lemma {:induction false} ItemAccepted(before: string, item: Syntax, after: string, depth: nat, rest: string)
    requires AllSpace(before) && AllSpace(after) && Fits(item, depth + 1)
    requires rest != [] && rest[0] in {',', ']', '}'}
    ensures var s := before + Then(item, after + rest);
      && SkipSpace(s) == Then(item, after + rest) && Starts(SkipSpace(s))
      && ReadValue(SkipSpace(s), depth + 1) == Parsed(Meaning(item, depth + 1), after + rest)
      && SkipSpace(after + rest) == rest
    decreases item, 1
  {
    StartsRight(item, depth + 1, after + rest);
    SkipPad(before, Then(item, after + rest));
    SkipPad(after, rest);
    assert Ends(after + rest) by { assert after == [] ==> after + rest == rest; }
    Accepted(item, depth + 1, after + rest);
  }

  lemma {:induction false} FieldsAccepted(fields: Fields, depth: nat, read: map<string, Value>, tail: string)
    requires FieldsFit(fields, depth + 1)
    ensures ReadFields(FieldsThen(fields, "}" + tail), depth, read) == Parsed(Obj(Entries(fields, depth + 1, read)), tail)
    ensures var s := SkipSpace(FieldsThen(fields, "}" + tail)); s != [] && s[0] == '"'
    decreases fields, 0
  {
    match fields
    case LastField(key, item, after) =>
      ItemAccepted([], item, after, depth, "}" + tail);
      KeyAccepted(key, Then(item, after + ("}" + tail)));
      assert ("}" + tail)[1..] == tail;
    case MoreFields(key, item, after, rest) =>
      var next := FieldsThen(rest, "}" + tail);
      ItemAccepted([], item, after, depth, "," + next);
      KeyAccepted(key, Then(item, after + ("," + next)));
      assert ("," + next)[1..] == next;
      FieldsAccepted(rest, depth, read[Bytes(key.pieces) := Meaning(item, depth + 1)], tail);
  }

  lemma {:induction false} KeyAccepted(key: Key, rest: string)
    requires KeyFits(key) && Starts(rest)
    ensures ReadKey(KeyThen(key, rest)) == Parsed(Bytes(key.pieces), rest)
    ensures var s := SkipSpace(KeyThen(key, rest)); s != [] && s[0] == '"'
  {
    var colon := ":" + (key.pad + rest);
    var quoted := QuotedThen(key.pieces, key.gap + colon);
    SkipPad(key.before, quoted);
    assert quoted[1..] == PiecesThen(key.pieces, "\"" + (key.gap + colon));
    StringReads(key.pieces, [], key.gap + colon);
    assert [] + Bytes(key.pieces) == Bytes(key.pieces);
    SkipPad(key.gap, colon);
    assert colon[1..] == key.pad + rest;
    SkipPad(key.pad, rest);
  }

  // ----- whatever is read is a tree -----------------------------------------------------------------

  lemma {:induction false} PadOf(s: string) returns (pad: string)
    ensures AllSpace(pad) && s == pad + SkipSpace(s)
  {
    if s != [] && IsSpace(s[0]) {
      var rest := PadOf(s[1..]);
      pad := [s[0]] + rest;
      assert s == [s[0]] + s[1..];
      Regrouped([s[0]], rest, SkipSpace(s[1..]));
    } else {
      pad := [];
    }
  }

  lemma {:induction false} TreeOf(s: string, depth: nat) returns (t: Syntax)
    requires ReadValue(s, depth).Parsed?
    ensures Fits(t, depth) && s == Then(t, ReadValue(s, depth).rest) && ReadValue(s, depth).value == Meaning(t, depth)
    decreases |s|, 2
  {
    if s[0] == '{' {
      t := ObjectOf(s, depth);
    } else if s[0] == '[' {
      t := ArrayOf(s, depth);
    } else {
      t := ScalarOf(s, depth);
    }
  }

  lemma First(s: string)
    requires s != []
    ensures s == [s[0]] + s[1..]
  {
  }

  lemma {:induction false} ObjectOf(s: string, depth: nat) returns (t: Syntax)
    requires ReadValue(s, depth).Parsed? && s[0] == '{'
    ensures Fits(t, depth) && s == Then(t, ReadValue(s, depth).rest) && ReadValue(s, depth).value == Meaning(t, depth)
    decreases |s|, 1
  {
    First(s);
    var u := SkipSpace(s[1..]);
    if u != [] && u[0] == '}' {
      var pad := PadOf(s[1..]);
      First(u);
      t := NoFields(pad);
    } else {
      ReadOnceF(s[1..], depth);
      var fields := FieldsOf(s[1..], depth, map[]);
      t := Object(fields);
    }
  }

  lemma {:induction false} ArrayOf(s: string, depth: nat) returns (t: Syntax)
    requires ReadValue(s, depth).Parsed? && s[0] == '['
    ensures Fits(t, depth) && s == Then(t, ReadValue(s, depth).rest) && ReadValue(s, depth).value == Meaning(t, depth)
    decreases |s|, 1
  {
    First(s);
    var u := SkipSpace(s[1..]);
    if u != [] && u[0] == ']' {
      var pad := PadOf(s[1..]);
      First(u);
      t := NoItems(pad);
    } else {
      ReadOnceI(s[1..], depth);
      var items := ItemsOf(s[1..], depth, []);
      t := Array(items);
      assert [] + Values(items, depth + 1) == Values(items, depth + 1);
    }
  }

  lemma {:induction false} SkipTwice(s: string)
    ensures SkipSpace(SkipSpace(s)) == SkipSpace(s)
  {
    SkipPad([], SkipSpace(s));
    assert [] + SkipSpace(s) == SkipSpace(s);
  }

  lemma {:induction false} ReadOnceI(s: string, depth: nat)
    ensures ReadItems(SkipSpace(s), depth, []) == ReadItems(s, depth, [])
  {
    SkipTwice(s);
  }

  lemma {:induction false} ReadOnceF(s: string, depth: nat)
    ensures ReadFields(SkipSpace(s), depth, map[]) == ReadFields(s, depth, map[])
  {
    SkipTwice(s);
  }

  lemma {:induction false} ScalarOf(s: string, depth: nat) returns (t: Syntax)
    requires ReadValue(s, depth).Parsed? && s[0] !in {'{', '['}
    ensures Fits(t, depth) && s == Then(t, ReadValue(s, depth).rest) && ReadValue(s, depth).value == Meaning(t, depth)
  {
    var c := s[0];
    if c == '"' {
      var pieces := PiecesOf(s[1..], []);
      t := Quoted(pieces);
      assert s == "\"" + s[1..];
      assert [] + Bytes(pieces) == Bytes(pieces);
    } else if c in {'t', 'f', 'n'} {
      t := NameOf(s, depth);
    } else {
      var token, mark, plus := NumberOf(s);
      t := Number(token, mark, plus);
      NumberIs(token);
    }
  }

  lemma {:induction false} NameOf(s: string, depth: nat) returns (t: Syntax)
    requires ReadValue(s, depth).Parsed? && s[0] in {'t', 'f', 'n'}
    ensures Fits(t, depth) && s == Then(t, ReadValue(s, depth).rest) && ReadValue(s, depth).value == Meaning(t, depth)
  {
    var word := if s[0] == 't' then "true" else if s[0] == 'f' then "false" else "null";
    assert s == s[..|word|] + s[|word|..];
    t := Name(word);
  }

  /** How the number was spelled. */
  lemma {:induction false} NumberOf(s: string) returns (t: Token, mark: char, plus: bool)
    requires ReadNumber(s).0.Some?
    ensures Spells(t, mark) && !Blank(t) && s == NumberText(t, mark, plus) + ReadNumber(s).1
    ensures ReadNumber(s).0 == NumberValue(t)
  {
    t := ScanNumber(s).0;
    var s1 := ScanSign(s).1;
    var n := DigitRun(s1);
    var s2 := ScanFraction(s1[n..]).2;
    mark, plus := ExponentOf(s2);
    var tail := ScanExponent(s2).3;
    FractionOf(s1[n..]);
    assert s1 == t.digits + s1[n..];
    assert s == (if t.negative then "-" else "") + s1 by { SignOf(s); }
    TextIs(t, mark, plus, tail);
  }

  lemma SignOf(s: string)
    ensures s == (if ScanSign(s).0 then "-" else "") + ScanSign(s).1
  {
  }

  lemma FractionOf(s: string)
    ensures var (point, fraction, rest) := ScanFraction(s);
      s == (if point then "." + fraction else "") + rest && (!point ==> fraction == [])
  {
    if s != [] && s[0] == '.' {
      var n := DigitRun(s[1..]);
      assert s == "." + (s[1..][..n] + s[1..][n..]);
    }
  }

  lemma {:induction false} ExponentOf(s: string) returns (mark: char, plus: bool)
    ensures mark in {'e', 'E'}
    ensures var (marked, negative, exponent, rest) := ScanExponent(s);
      && (!marked ==> exponent == [] && !negative)
      && s == (if marked then [mark] + Sign(negative, plus) + exponent else "") + rest
  {
    if s != [] && (s[0] == 'e' || s[0] == 'E') {
      mark, plus := s[0], 1 < |s| && s[1] == '+';
      var (marked, negative, exponent, rest) := ScanExponent(s);
      First(s);
      SignedOf(s[1..]);
      FourParts([mark], Sign(negative, plus), exponent, rest);
    } else {
      mark, plus := 'e', false;
    }
  }

  function Sign(negative: bool, plus: bool): string {
    if negative then "-" else if plus then "+" else ""
  }

  lemma SignedOf(t: string)
    ensures var signed := t != [] && (t[0] == '+' || t[0] == '-');
      var u := if signed then t[1..] else t;
      var n := DigitRun(u);
      t == Sign(signed && t[0] == '-', t != [] && t[0] == '+') + (u[..n] + u[n..])
  {
    var signed := t != [] && (t[0] == '+' || t[0] == '-');
    var u := if signed then t[1..] else t;
    var n := DigitRun(u);
    assert u == u[..n] + u[n..];
  }

  lemma FourParts(a: string, b: string, c: string, d: string)
    ensures a + b + c + d == a + (b + (c + d))
  {
  }

  lemma TextIs(t: Token, mark: char, plus: bool, tail: string)
    ensures NumberText(t, mark, plus) + tail ==
            (if t.negative then "-" else "") + (t.digits + (FractionText(t) + (ExponentText(t, mark, plus) + tail)))
  {
  }

  lemma {:induction false} ItemsOf(s: string, depth: nat, read: seq<Value>) returns (items: Items)
    requires ReadItems(s, depth, read).Parsed?
    ensures var p := ReadItems(s, depth, read);
      ItemsFit(items, depth + 1) && s == ItemsThen(items, "]" + p.rest) && p.value == Arr(read + Values(items, depth + 1))
    decreases |s|, 3
  {
    var before := PadOf(s);
    var x := ReadValue(SkipSpace(s), depth + 1);
    var item := TreeOf(SkipSpace(s), depth + 1);
    var after := PadOf(x.rest);
    var t := SkipSpace(x.rest);
    First(t);
    if t[0] == ',' {
      var rest := ItemsOf(t[1..], depth, read + [x.value]);
      items := MoreItems(before, item, after, rest);
      Collected(read, x.value, Values(rest, depth + 1));
    } else {
      items := LastItem(before, item, after);
    }
  }

  lemma {:induction false} KeyOf(s: string) returns (key: Key)
    requires ReadKey(s).Parsed?
    ensures KeyFits(key) && s == KeyThen(key, ReadKey(s).rest) && ReadKey(s).value == Bytes(key.pieces)
  {
    var before := PadOf(s);
    var t := SkipSpace(s);
    var pieces := PiecesOf(t[1..], []);
    var x := ReadString(t[1..], []);
    var gap, pad := ColonOf(x.rest);
    assert t == "\"" + t[1..];
    assert [] + Bytes(pieces) == Bytes(pieces);
    key := Key(before, pieces, gap, pad);
  }

  lemma {:induction false} ColonOf(s: string) returns (gap: string, pad: string)
    requires var u := SkipSpace(s); u != [] && u[0] == ':'
    ensures AllSpace(gap) && AllSpace(pad) && s == gap + (":" + (pad + SkipSpace(SkipSpace(s)[1..])))
  {
    gap := PadOf(s);
    var u := SkipSpace(s);
    pad := PadOf(u[1..]);
    assert u == ":" + u[1..];
  }

  lemma {:induction false} FieldsOf(s: string, depth: nat, read: map<string, Value>) returns (fields: Fields)
    requires ReadFields(s, depth, read).Parsed?
    ensures var p := ReadFields(s, depth, read);
      && FieldsFit(fields, depth + 1) && s == FieldsThen(fields, "}" + p.rest)
      && p.value == Obj(Entries(fields, depth + 1, read))
    decreases |s|, 3
  {
    var key := KeyOf(s);
    var k := ReadKey(s);
    var x := ReadValue(k.rest, depth + 1);
    var item := TreeOf(k.rest, depth + 1);
    var after := PadOf(x.rest);
    var t := SkipSpace(x.rest);
    First(t);
    if t[0] == ',' {
      var rest := FieldsOf(t[1..], depth, read[k.value := x.value]);
      fields := MoreFields(key, item, after, rest);
    } else {
      fields := LastField(key, item, after);
    }
  }

  // ----- files --------------------------------------------------------------------------------------

  /** The byte order mark of UTF-8. */
  const MARK: string := [0xEF as char, 0xBB as char, 0xBF as char]

  /** The text is one tree, with space before and after, and perhaps a mark before all. */
  predicate Spelled(text: string, marked: bool, before: string, t: Syntax, after: string) {
    && AllSpace(before) && AllSpace(after) && Fits(t, 0)
    && text == (if marked then MARK else "") + (before + Then(t, after))
  }

  /** The reader reads a file if and only if it is the text of a tree, and then as what that tree stands for. */
  lemma {:induction false} ReadsIff(text: string, v: Value)
    ensures ReadFile(text) == Some(v) <==>
            exists marked, before, t, after :: Spelled(text, marked, before, t, after) && Meaning(t, 0) == v
  {
    if ReadFile(text) == Some(v) {
      var marked, before, t, after := SpellingOf(text);
      assert Spelled(text, marked, before, t, after) && Meaning(t, 0) == v;
    }
    forall marked, before, t, after | Spelled(text, marked, before, t, after) && Meaning(t, 0) == v
      ensures ReadFile(text) == Some(v)
    {
      SpelledIsRead(text, marked, before, t, after);
    }
  }

  lemma {:induction false} SpellingOf(text: string) returns (marked: bool, before: string, t: Syntax, after: string)
    requires ReadFile(text).Some?
    ensures Spelled(text, marked, before, t, after) && ReadFile(text) == Some(Meaning(t, 0))
  {
    var s := WithoutMark(text);
    marked := |s| < |text|;
    assert marked ==> text == MARK + s;
    before := PadOf(s);
    t := TreeOf(SkipSpace(s), 0);
    var rest := ReadValue(SkipSpace(s), 0).rest;
    after := PadOf(rest);
    assert after == rest;
  }

  lemma {:induction false} SpelledIsRead(text: string, marked: bool, before: string, t: Syntax, after: string)
    requires Spelled(text, marked, before, t, after)
    ensures ReadFile(text) == Some(Meaning(t, 0))
  {
    var s := before + Then(t, after);
    StartsRight(t, 0, after);
    assert WithoutMark(text) == s by { Unmarked(before, Then(t, after), marked); }
    SkipPad(before, Then(t, after));
    Accepted(t, 0, after);
    SkipPad(after, []);
    assert after + [] == after;
  }

  lemma Unmarked(before: string, s: string, marked: bool)
    requires AllSpace(before) && Starts(s)
    ensures WithoutMark((if marked then MARK else "") + (before + s)) == before + s
  {
    var text := before + s;
    assert text[0] == if before == [] then s[0] else before[0];
    if marked {
      assert (MARK + text)[3..] == text;
    } else {
      assert "" + text == text;
    }
  }

  /** A text stands for one value, however it is taken apart. */
  lemma {:induction false} OneMeaning(text: string, marked: bool, before: string, t: Syntax, after: string,
                                      marked': bool, before': string, t': Syntax, after': string)
    requires Spelled(text, marked, before, t, after) && Spelled(text, marked', before', t', after')
    ensures Meaning(t, 0) == Meaning(t', 0)
  {
    SpelledIsRead(text, marked, before, t, after);
    SpelledIsRead(text, marked', before', t', after');
  }
}
