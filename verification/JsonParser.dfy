/**
 The parser as it runs: one position moving over the text, with the line and column of where it stands. Each
 method reads what the grammar reads from there, and fails where the grammar does. Characters past the end are never
 looked at.
 */
module JsonParser {
  import opened Options
  import opened Json
  import opened JsonNumbers
  import opened JsonGrammar
  import opened JsonPlaces

  datatype ParseError = ParseError(line: nat, column: nat, message: string)

  /** The outcome of reading, and what is left, as the grammar has it. */
  ghost predicate Agrees<T>(p: Parsed<T>, v: Option<T>, rest: string) {
    v == (if p.Parsed? then Some(p.value) else None) && rest == p.rest
  }

  class Parser {
    const text: string
    var position: nat
    var line: nat
    var column: nat
    var error: Option<ParseError>
    ghost var given: nat   // how often, on this line, the position went back and the column did not

    /** Line and column are those of the position, but for what has been given back. */
    ghost predicate Stands()
      reads this
    {
      && position <= |text| && line == LineAt(text[..position])
      && column == ColumnAt(text[..position]) + 6 * given
    }

    /** Between the parts of the text, with nothing failed. */
    ghost predicate Valid()
      reads this
    {
      Stands() && Clear(text, position) && given == Unpairs(text, position) && error.None?
    }

    /** Where it failed is where it stands. */
    ghost predicate Failed()
      reads this
    {
      && position <= |text| && error.Some? && error.value.line == LineAt(text[..position])
      && error.value.column == ColumnAt(text[..position]) + 6 * Unpairs(text, position)
    }

    /** How a method leaves the parser. */
    ghost predicate Left(ok: bool)
      reads this
    {
      if ok then Valid() else Failed()
    }

    function Rest(): string
      requires position <= |text|
      reads this
    {
      text[position..]
    }

    constructor (text: string)
      ensures Valid() && this.text == text && Rest() == text
    {
      this.text, position, line, column, error, given := text, 0, 1, 1, None, 0;
      new;
      assert text[..0] == [];
    }

    /** Moves over `count` characters, or to the end. */
    method Advance(count: nat)
      requires Stands()
      modifies `position, `line, `column, `given
      ensures Stands() && Rest() == old(Rest())[if count <= |old(Rest())| then count else |old(Rest())|..]
      ensures position == if old(position) + count <= |text| then old(position) + count else |text|
      ensures OneLine(text, old(position), position) ==> given == old(given)
      ensures count == 1 && old(position) < |text| && text[old(position)] == '\n' ==> given == 0
      ensures old(Valid()) && (forall j | old(position) <= j < position :: text[j] != '\\') ==> Valid()
    {
      var i := 0;
      while i < count && position < |text|
        invariant Stands() && i <= count && position == old(position) + i
        invariant OneLine(text, old(position), position) ==> given == old(given)
        invariant i == 1 && text[old(position)] == '\n' ==> given == 0
        invariant old(Valid()) && (forall j | old(position) <= j < position :: text[j] != '\\') ==> Valid()
      {
        assert text[..position + 1][..position] == text[..position];
        ghost var here, was := position, Valid();
        if text[position] == '\n' {
          line := line + 1;
          column := 1;
          given := 0;
        } else {
          column := column + 1;
        }
        position := position + 1;
        i := i + 1;
        if was && text[here] != '\\' {
          Plain(text, here);
        }
      }
    }

    /** Keeps the first, innermost failure. */
    method Fail(message: string)
      requires Stands() && given == Unpairs(text, position)
      modifies `error
      ensures error == if old(error).Some? then old(error) else Some(ParseError(line, column, message))
      ensures old(error).None? ==> Failed()
    {
      if error.None? {
        error := Some(ParseError(line, column, message));
      }
    }

    method SkipWhitespace()
      requires Valid()
      modifies `position, `line, `column, `given
      ensures Valid() && Rest() == SkipSpace(old(Rest())) && old(position) <= position
    {
      while position < |text| && IsSpace(text[position])
        invariant Valid() && old(position) <= position
        invariant SkipSpace(Rest()) == SkipSpace(old(Rest()))
        decreases |text| - position
      {
        assert Rest()[1..] == text[position + 1..];
        Advance(1);
      }
    }

    method ParseLiteral(word: string, value: Value) returns (v: Option<Value>)
      requires Valid() && word != [] && forall c | c in word :: c != '\\'
      modifies `position, `line, `column, `given, `error
      ensures Left(v.Some?) && old(position) <= position
      ensures Agrees(ReadLiteral(old(Rest()), word, value), v, Rest())
    {
      if |word| <= |text| - position && text[position..position + |word|] == word {
        assert Rest()[..|word|] == text[position..position + |word|];
        forall j | position <= j < position + |word| ensures text[j] != '\\' {
          assert text[position..position + |word|][j - position] == text[j] && word[j - position] in word;
        }
        Advance(|word|);
        return Some(value);
      }
      assert |word| <= |Rest()| ==> Rest()[..|word|] == text[position..position + |word|];
      Fail("unrecognised token");
      return None;
    }

    /** Four digits; what has been given back must be right only where they are missing. */
    method ParseHex4() returns (code: Option<nat>)
      requires Stands() && error.None? && (Hex4(Rest()).None? ==> given == Unpairs(text, position))
      modifies `position, `line, `column, `given, `error
      ensures Stands() && code == Hex4(old(Rest()))
      ensures code.Some? ==> position == old(position) + 4 && Rest() == old(Rest())[4..]
      ensures code.Some? ==> given == old(given) && error.None?
      ensures code.None? ==> Failed() && position == old(position)
    {
      if position + 4 > |text| {
        Fail("truncated \\u escape");
        return None;
      }
      var a, b := HexValue(text[position]), HexValue(text[position + 1]);
      var c, d := HexValue(text[position + 2]), HexValue(text[position + 3]);
      if a.None? || b.None? || c.None? || d.None? {
        Fail("bad hex digit in \\u escape");
        return None;
      }
      HexDigits(text, position);
      Advance(4);
      return Some(((a.value * 16 + b.value) * 16 + c.value) * 16 + d.value);
    }

    /** At the escape after a high surrogate. A half that is no low one is given back: the position goes back,
        the column does not. */
    method ParseLow(high: nat) returns (bytes: Option<string>)
      requires Stands() && error.None? && 6 <= position && Clear(text, position - 6) && given == Unpairs(text, position - 6)
      requires Unicode(text, position - 6) && Hex4(text[position - 4..]) == Some(high) && IsHigh(high)
      requires position + 2 <= |text| && text[position] == '\\' && text[position + 1] == 'u'
      modifies `position, `line, `column, `given, `error
      ensures Left(bytes.Some?) && old(position) <= position
      ensures Agrees(ReadLow(high, old(Rest())), bytes, Rest())
    {
      var low := ParseSecond();
      if low.None? {
        return None;
      }
      SecondThere(text, position - 12);
      if IsLow(low.value) {
        return Some(Utf8(0x10000 + (high - 0xD800) * 0x400 + (low.value - 0xDC00)));
      }
      GoBack();
      return Some(Utf8(high));
    }

    /** The escape after a high surrogate. */
    method ParseSecond() returns (low: Option<nat>)
      requires Stands() && error.None? && 6 <= position && Clear(text, position - 6) && given == Unpairs(text, position - 6)
      requires Unicode(text, position - 6)
      requires position + 2 <= |text| && text[position] == '\\' && text[position + 1] == 'u'
      modifies `position, `line, `column, `given, `error
      ensures low == Hex4(old(Rest())[2..])
      ensures low.None? ==> Failed() && position == old(position) + 2
      ensures low.Some? ==> Stands() && error.None? && position == old(position) + 6 && given == old(given)
    {
      ghost var start := position - 6;
      assert Rest()[2..] == text[start + 8..];
      Advance(2);
      if Hex4(text[start + 8..]).None? {
        SecondMissing(text, start);
      }
      low := ParseHex4();
    }

    /** From the end of an escape to where it began, in position alone. */
    method GoBack()
      requires Stands() && error.None? && 12 <= position && Unpaired(text, position - 12)
      requires Clear(text, position - 6) && given + 1 == Unpairs(text, position - 6)
      modifies `position, `given
      ensures Valid() && position == old(position) - 6
    {
      HexDigits(text, position - 4);
      Along(text, position - 6, position);
      position := position - 6;
      given := given + 1;
    }

    /** After `\u`. */
    method ParseUnicode() returns (bytes: Option<string>)
      requires Stands() && error.None? && 2 <= position && Clear(text, position - 2)
      requires text[position - 2] == '\\' && text[position - 1] == 'u' && given == Unpairs(text, position - 2)
      modifies `position, `line, `column, `given, `error
      ensures Left(bytes.Some?) && old(position) <= position
      ensures Agrees(ReadUnicode(old(Rest())), bytes, Rest())
    {
      ghost var start := position - 2;
      Escaped(text, start);
      var code := ParseHex4();
      if code.None? {
        return None;
      }
      UnicodeDone(text, start);
      if IsHigh(code.value) && position + 2 <= |text| && text[position] == '\\' && text[position + 1] == 'u' {
        bytes := ParseLow(code.value);
        return;
      }
      return Some(Utf8(code.value));
    }

    /** At a backslash. */
    method ParseEscape() returns (bytes: Option<string>)
      requires Valid() && position < |text| && text[position] == '\\'
      modifies `position, `line, `column, `given, `error
      ensures Left(bytes.Some?) && old(position) < position
      ensures Agrees(ReadEscape(old(Rest())[1..]), bytes, Rest())
    {
      Backslash(text, position);
      Advance(1);
      if position >= |text| {
        Fail("unterminated escape");
        return None;
      }
      Escaped(text, position - 1);
      var escape := text[position];
      Advance(1);
      match escape {
        case '"' => return Some(['"']);
        case '\\' => return Some(['\\']);
        case '/' => return Some(['/']);
        case 'b' => return Some([8 as char]);
        case 'f' => return Some([12 as char]);
        case 'n' => return Some(['\n']);
        case 'r' => return Some(['\r']);
        case 't' => return Some(['\t']);
        case 'u' => bytes := ParseUnicode();
        case _ =>
          Fail("unrecognised escape");
          return None;
      }
    }

    /** At the opening quote. */
    method ParseString() returns (out: Option<string>)
      requires Valid() && position < |text| && text[position] == '"'
      modifies `position, `line, `column, `given, `error
      ensures Left(out.Some?) && old(position) < position
      ensures Agrees(ReadString(old(Rest())[1..], []), out, Rest())
    {
      Advance(1);
      var read: string := [];
      while true
        invariant Valid() && old(position) < position
        invariant ReadString(Rest(), read) == ReadString(old(Rest())[1..], [])
        decreases |text| - position
      {
        var more, last := ParseCharacter(read);
        if more.None? {
          return None;
        }
        read := more.value;
        if last {
          return Some(read);
        }
      }
    }

    /** One character of a string, or the quote that ends it. */
    method ParseCharacter(read: string) returns (more: Option<string>, last: bool)
      requires Valid()
      modifies `position, `line, `column, `given, `error
      ensures Left(more.Some?) && old(position) <= position && (more.Some? ==> old(position) < position)
      ensures more.None? ==> ReadString(old(Rest()), read) == Parsed.Failed(Rest())
      ensures more.Some? && last ==> ReadString(old(Rest()), read) == Parsed(more.value, Rest())
      ensures more.Some? && !last ==> ReadString(old(Rest()), read) == ReadString(Rest(), more.value)
    {
      if position >= |text| {
        Fail("unterminated string");
        return None, true;
      }
      var c := text[position];
      assert Rest()[0] == c && Rest()[1..] == text[position + 1..];
      if c == '"' {
        Advance(1);
        return Some(read), true;
      }
      if c == '\\' {
        var bytes := ParseEscape();
        if bytes.None? {
          return None, true;
        }
        return Some(read + bytes.value), false;
      }
      if c < ' ' {
        Fail("control character in string");
        return None, true;
      }
      Advance(1);
      return Some(read + [c]), false;
    }

    method SkipDigits() returns (digits: string)
      requires Valid()
      modifies `position, `line, `column, `given
      ensures Valid() && position == old(position) + DigitRun(old(Rest()))
      ensures digits == old(Rest())[..DigitRun(old(Rest()))] && Rest() == old(Rest())[DigitRun(old(Rest()))..]
    {
      var start := position;
      while position < |text| && IsDigit(text[position])
        invariant Valid() && start <= position
        invariant DigitRun(old(Rest())) == position - start + DigitRun(Rest())
        decreases |text| - position
      {
        assert Rest()[0] == text[position] && Rest()[1..] == text[position + 1..];
        Advance(1);
      }
      digits := text[start..position];
      assert DigitRun(Rest()) == 0;
      Taken(text, start, position);
    }

    method ParseFraction() returns (point: bool, fraction: string)
      requires Valid()
      modifies `position, `line, `column, `given
      ensures Valid() && old(position) <= position
      ensures (point, fraction, Rest()) == ScanFraction(old(Rest()))
    {
      if position < |text| && text[position] == '.' {
        assert Rest()[1..] == text[position + 1..];
        Advance(1);
        fraction := SkipDigits();
        return true, fraction;
      }
      return false, "";
    }

    method ParseExponent() returns (marked: bool, negative: bool, exponent: string)
      requires Valid()
      modifies `position, `line, `column, `given
      ensures Valid() && old(position) <= position
      ensures (marked, negative, exponent, Rest()) == ScanExponent(old(Rest()))
    {
      if position < |text| && (text[position] == 'e' || text[position] == 'E') {
        Advance(1);
        negative := position < |text| && text[position] == '-';
        if position < |text| && (text[position] == '+' || text[position] == '-') {
          Advance(1);
        }
        exponent := SkipDigits();
        return true, negative, exponent;
      }
      return false, false, "";
    }

    /** Takes all that can belong to a number, and then asks what it says. */
    method ParseNumber() returns (v: Option<Value>)
      requires Valid()
      modifies `position, `line, `column, `given, `error
      ensures Left(v.Some?) && old(position) <= position
      ensures Agrees(ReadScalarNumber(old(Rest())), v, Rest())
    {
      var negative := position < |text| && text[position] == '-';
      if negative {
        Advance(1);
      }
      assert ScanSign(old(Rest())) == (negative, Rest());
      var digits := SkipDigits();
      var point, fraction := ParseFraction();
      var marked, exponentNegative, exponent := ParseExponent();
      var token := Token(negative, digits, point, fraction, marked, exponentNegative, exponent);
      assert ScanNumber(old(Rest())) == (token, Rest());
      v := NumberValue(token);
      if v.None? {
        Fail(if digits == "" && !point && !marked then "expected a value" else "malformed number");
      }
    }

    method ParseValue(depth: nat) returns (v: Option<Value>)
      requires Valid()
      modifies `position, `line, `column, `given, `error
      ensures Left(v.Some?) && old(position) <= position
      ensures Agrees(ReadValue(old(Rest()), depth), v, Rest())
      decreases |text| - position, 1
    {
      if depth > MAX_DEPTH {
        Fail("nesting too deep");
        return None;
      }
      if position >= |text| {
        Fail("unexpected end of input");
        return None;
      }
      match text[position] {
        case '{' => v := ParseObject(depth);
        case '[' => v := ParseArray(depth);
        case '"' =>
          var t := ParseString();
          v := if t.None? then None else Some(Str(t.value));
        case 't' => v := ParseLiteral("true", Bool(true));
        case 'f' => v := ParseLiteral("false", Bool(false));
        case 'n' => v := ParseLiteral("null", Null);
        case _ => v := ParseNumber();
      }
    }

    /** What follows an element: a comma, or the end of the whole. */
    method ParseSeparator(close: char, unterminated: string, expected: string) returns (ok: bool, last: bool)
      requires Valid() && close != ',' && close != '\\'
      modifies `position, `line, `column, `given, `error
      ensures Left(ok) && old(position) <= position
      ensures var t := SkipSpace(old(Rest()));
        && ok == (t != [] && (t[0] == ',' || t[0] == close))
        && (if ok then last == (t[0] == close) && Rest() == t[1..] && old(position) < position else Rest() == t)
    {
      SkipWhitespace();
      if position >= |text| {
        Fail(unterminated);
        return false, false;
      }
      assert Rest()[0] == text[position] && Rest()[1..] == text[position + 1..];
      if text[position] != ',' && text[position] != close {
        Fail(expected);
        return false, false;
      }
      ok, last := true, text[position] == close;
      Advance(1);
    }

    /** One element and what ends it: a comma, or the bracket. */
    method ParseItem(depth: nat, ghost read: seq<Value>) returns (item: Option<Value>, last: bool)
      requires Valid() && depth <= MAX_DEPTH
      modifies `position, `line, `column, `given, `error
      ensures Left(item.Some?) && old(position) <= position
      ensures item.None? ==> ReadItems(old(Rest()), depth, read) == Parsed.Failed(Rest())
      ensures item.Some? ==> old(position) < position
      ensures item.Some? && last ==> ReadItems(old(Rest()), depth, read) == Parsed(Arr(read + [item.value]), Rest())
      ensures item.Some? && !last ==>
        ReadItems(old(Rest()), depth, read) == ReadItems(Rest(), depth, read + [item.value])
      decreases |text| - position, 2
    {
      SkipWhitespace();
      item := ParseValue(depth + 1);
      if item.None? {
        return None, true;
      }
      var ok;
      ok, last := ParseSeparator(']', "unterminated array", "expected ',' or ']'");
      if !ok {
        item := None;
      }
    }

    method ParseArray(depth: nat) returns (v: Option<Value>)
      requires Valid() && depth <= MAX_DEPTH && position < |text| && text[position] == '['
      modifies `position, `line, `column, `given, `error
      ensures Left(v.Some?) && old(position) <= position
      ensures Agrees(ReadValue(old(Rest()), depth), v, Rest())
      decreases |text| - position, 0
    {
      assert Rest()[1..] == text[position + 1..];
      Advance(1);
      SkipWhitespace();
      if position < |text| && text[position] == ']' {
        Advance(1);
        return Some(Arr([]));
      }
      var items: seq<Value> := [];
      while true
        invariant Valid() && old(position) < position
        invariant ReadItems(Rest(), depth, items) == ReadValue(old(Rest()), depth)
        decreases |text| - position
      {
        var item, last := ParseItem(depth, items);
        if item.None? {
          return None;
        }
        items := items + [item.value];
        if last {
          return Some(Arr(items));
        }
      }
    }

    method ParseKey() returns (key: Option<string>)
      requires Valid()
      modifies `position, `line, `column, `given, `error
      ensures Left(key.Some?) && old(position) <= position
      ensures Agrees(ReadKey(old(Rest())), key, Rest())
    {
      SkipWhitespace();
      if position >= |text| || text[position] != '"' {
        Fail("expected a key");
        return None;
      }
      key := ParseString();
      if key.None? {
        return None;
      }
      var ok := ParseColon();
      key := if ok then key else None;
    }

    method ParseColon() returns (ok: bool)
      requires Valid()
      modifies `position, `line, `column, `given, `error
      ensures Left(ok) && old(position) <= position
      ensures var u := SkipSpace(old(Rest()));
        ok == (u != [] && u[0] == ':') && Rest() == if ok then SkipSpace(u[1..]) else u
    {
      SkipWhitespace();
      if position >= |text| || text[position] != ':' {
        Fail("expected ':' after key");
        return false;
      }
      Advance(1);
      SkipWhitespace();
      return true;
    }

    /** One field and what ends it: a comma, or the brace. */
    method ParseField(depth: nat, fields: map<string, Value>) returns (more: Option<map<string, Value>>, last: bool)
      requires Valid() && depth <= MAX_DEPTH
      modifies `position, `line, `column, `given, `error
      ensures Left(more.Some?) && old(position) <= position
      ensures more.None? ==> ReadFields(old(Rest()), depth, fields) == Parsed.Failed(Rest())
      ensures more.Some? ==> old(position) < position
      ensures more.Some? && last ==> ReadFields(old(Rest()), depth, fields) == Parsed(Obj(more.value), Rest())
      ensures more.Some? && !last ==>
        ReadFields(old(Rest()), depth, fields) == ReadFields(Rest(), depth, more.value)
      decreases |text| - position, 2
    {
      var key := ParseKey();
      if key.None? {
        return None, true;
      }
      var field := ParseValue(depth + 1);
      if field.None? {
        return None, true;
      }
      var ok;
      ok, last := ParseSeparator('}', "unterminated object", "expected ',' or '}'");
      more := if ok then Some(fields[key.value := field.value]) else None;
    }

    method ParseObject(depth: nat) returns (v: Option<Value>)
      requires Valid() && depth <= MAX_DEPTH && position < |text| && text[position] == '{'
      modifies `position, `line, `column, `given, `error
      ensures Left(v.Some?) && old(position) <= position
      ensures Agrees(ReadValue(old(Rest()), depth), v, Rest())
      decreases |text| - position, 0
    {
      assert Rest()[1..] == text[position + 1..];
      Advance(1);
      SkipWhitespace();
      if position < |text| && text[position] == '}' {
        Advance(1);
        return Some(Obj(map[]));
      }
      var fields: map<string, Value> := map[];
      while true
        invariant Valid() && old(position) < position
        invariant ReadFields(Rest(), depth, fields) == ReadValue(old(Rest()), depth)
        decreases |text| - position
      {
        var more, last := ParseField(depth, fields);
        if more.None? {
          return None;
        }
        fields := more.value;
        if last {
          return Some(Obj(fields));
        }
      }
    }

    method Run() returns (v: Option<Value>)
      requires Valid() && position == 0
      modifies `position, `line, `column, `given, `error
      ensures Left(v.Some?)
      ensures var p := ReadValue(SkipSpace(text), 0);
        v == if p.Failed? || SkipSpace(p.rest) != [] then None else Some(p.value)
      ensures v.None? ==> position == StopsAt(text)
    {
      SkipWhitespace();
      v := ParseValue(0);
      if v.None? {
        return;
      }
      SkipWhitespace();
      if position != |text| {
        Fail("unexpected trailing content");
        return None;
      }
    }
  }

  /** Reads a whole file; a byte order mark in front of it is passed over. A failure is on the line where reading
      stops; its column is right unless an unpaired escape is on that line before it. */
  method Parse(text: string) returns (v: Option<Value>, error: Option<ParseError>)
    ensures v == ReadFile(text) && (error.Some? <==> v.None?)
    ensures v.None? ==>
      var t := WithoutMark(text);
      var k := StopsAt(t);
      && error.value.line == LineAt(t[..k])
      && error.value.column == ColumnAt(t[..k]) + 6 * Unpairs(t, k)
      && (error.value.column == ColumnAt(t[..k]) <==> forall i: nat :: !UnpairedBefore(t, i, k))
  {
    var parser := new Parser(WithoutMark(text));
    v := parser.Run();
    error := parser.error;
    NoUnpairsIff(parser.text, StopsAt(parser.text));
  }

  lemma Taken(text: string, start: nat, position: nat)
    requires start <= position <= |text|
    ensures text[start..][..position - start] == text[start..position]
    ensures text[start..][position - start..] == text[position..]
  {
  }
}
