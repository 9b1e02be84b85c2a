/**
 What the parser reads from the front of a text, and what it leaves. Every part read takes at least one
 character, which is why reading ends.
 */
module JsonGrammar {
  import opened Options
  import opened Json
  import opened JsonNumbers

  /** What was read, or nothing; and what is left of the text from where reading has come to. */
  datatype Parsed<T> = Parsed(value: T, rest: string) | Failed(rest: string)

  predicate IsSpace(c: char) {
    c in {' ', '\t', '\n', '\r'}
  }

  function SkipSpace(s: string): (r: string)
    ensures |r| <= |s| && (r != [] ==> !IsSpace(r[0]))
  {
    if s != [] && IsSpace(s[0]) then SkipSpace(s[1..]) else s
  }

  // ----- strings -------------------------------------------------------------------------

  function HexValue(c: char): Option<nat> {
    if '0' <= c <= '9' then Some(c as nat - '0' as nat)
    else if 'a' <= c <= 'f' then Some(c as nat - 'a' as nat + 10)
    else if 'A' <= c <= 'F' then Some(c as nat - 'A' as nat + 10)
    else None
  }

  /** The number that four hex digits at the front of `s` spell. */
  function Hex4(s: string): (code: Option<nat>)
    ensures code.Some? ==> 4 <= |s| && code.value < 0x10000
  {
    if |s| < 4 then None
    else
      var a, b, c, d := HexValue(s[0]), HexValue(s[1]), HexValue(s[2]), HexValue(s[3]);
      if a.Some? && b.Some? && c.Some? && d.Some?
      then Some(((a.value * 16 + b.value) * 16 + c.value) * 16 + d.value)
      else None
  }

  function Byte(n: nat): char
    requires n < 0x100
  {
    n as char
  }

  /** The bytes of a code point; a lone surrogate gets the three bytes of its number. */
  function Utf8(code: nat): string
    requires code < 0x110000
  {
    if code < 0x80 then [Byte(code)]
    else if code < 0x800 then [Byte(0xC0 + code / 64), Byte(0x80 + code % 64)]
    else if code < 0x10000 then [Byte(0xE0 + code / 4096), Byte(0x80 + code / 64 % 64), Byte(0x80 + code % 64)]
    else
      [Byte(0xF0 + code / 262144), Byte(0x80 + code / 4096 % 64), Byte(0x80 + code / 64 % 64), Byte(0x80 + code % 64)]
  }

  predicate IsHigh(code: nat) {
    0xD800 <= code <= 0xDBFF
  }

  predicate IsLow(code: nat) {
    0xDC00 <= code <= 0xDFFF
  }

  /** At the escape after a high surrogate: the two make one code point, or the high one stands alone. */
  function ReadLow(high: nat, s: string): (p: Parsed<string>)
    requires IsHigh(high) && 2 <= |s|
    ensures |p.rest| <= |s|
  {
    var low := Hex4(s[2..]);
    if low.None? then Failed(s[2..])
    else if IsLow(low.value) then
      Parsed(Utf8(0x10000 + (high - 0xD800) * 0x400 + (low.value - 0xDC00)), s[2..][4..])
    else Parsed(Utf8(high), s)
  }

  /** After `\u`: one code point, or two escapes that make up one. */
  function ReadUnicode(s: string): (p: Parsed<string>)
    ensures |p.rest| <= |s| && (p.Parsed? ==> |p.rest| < |s|)
  {
    var code := Hex4(s);
    if code.None? then Failed(s)
    else
      var r := s[4..];
      if IsHigh(code.value) && 2 <= |r| && r[0] == '\\' && r[1] == 'u' then ReadLow(code.value, r)
      else Parsed(Utf8(code.value), r)
  }

  /** After a backslash. */
  function ReadEscape(s: string): (p: Parsed<string>)
    ensures |p.rest| <= |s| && (p.Parsed? ==> |p.rest| < |s|)
  {
    if s == [] then Failed(s)
    else if s[0] == '"' || s[0] == '\\' || s[0] == '/' then Parsed([s[0]], s[1..])
    else if s[0] == 'b' then Parsed([8 as char], s[1..])
    else if s[0] == 'f' then Parsed([12 as char], s[1..])
    else if s[0] == 'n' then Parsed(['\n'], s[1..])
    else if s[0] == 'r' then Parsed(['\r'], s[1..])
    else if s[0] == 't' then Parsed(['\t'], s[1..])
    else if s[0] == 'u' then ReadUnicode(s[1..])
    else Failed(s[1..])
  }

  /** After the opening quote, with what has been read already. */
  function ReadString(s: string, read: string): (p: Parsed<string>)
    ensures |p.rest| <= |s| && (p.Parsed? ==> |p.rest| < |s|)
    decreases |s|
  {
    if s == [] then Failed(s)
    else if s[0] == '"' then Parsed(read, s[1..])
    else if s[0] == '\\' then
      var e := ReadEscape(s[1..]);
      if e.Failed? then e else ReadString(e.rest, read + e.value)
    else if s[0] < ' ' then Failed(s)
    else ReadString(s[1..], read + [s[0]])
  }

  // ----- values ----------------------------------------------------------------------------

  function ReadLiteral(s: string, word: string, v: Value): (p: Parsed<Value>)
    requires word != []
    ensures |p.rest| <= |s| && (p.Parsed? ==> |p.rest| < |s|)
  {
    if |word| <= |s| && s[..|word|] == word then Parsed(v, s[|word|..]) else Failed(s)
  }

  lemma {:induction false} NumberAdvances(s: string)
    ensures ReadNumber(s).0.Some? ==> |ReadNumber(s).1| < |s|
  {
  }

  function ReadScalarNumber(s: string): (p: Parsed<Value>)
    ensures |p.rest| <= |s| && (p.Parsed? ==> |p.rest| < |s|)
  {
    NumberAdvances(s);
    if ReadNumber(s).0.Some? then Parsed(ReadNumber(s).0.value, ReadNumber(s).1)
    else Failed(ReadNumber(s).1)
  }

  function ReadValue(s: string, depth: nat): (p: Parsed<Value>)
    ensures |p.rest| <= |s| && (p.Parsed? ==> |p.rest| < |s|)
    decreases |s|, 0
  {
    if depth > MAX_DEPTH || s == [] then Failed(s)
    else if s[0] == '{' then
      var t := SkipSpace(s[1..]);
      if t != [] && t[0] == '}' then Parsed(Obj(map[]), t[1..]) else ReadFields(t, depth, map[])
    else if s[0] == '[' then
      var t := SkipSpace(s[1..]);
      if t != [] && t[0] == ']' then Parsed(Arr([]), t[1..]) else ReadItems(t, depth, [])
    else if s[0] == '"' then
      var text := ReadString(s[1..], []);
      if text.Failed? then Failed(text.rest) else Parsed(Str(text.value), text.rest)
    else if s[0] == 't' then ReadLiteral(s, "true", Bool(true))
    else if s[0] == 'f' then ReadLiteral(s, "false", Bool(false))
    else if s[0] == 'n' then ReadLiteral(s, "null", Null)
    else ReadScalarNumber(s)
  }

  /** The elements of an array from here to its end, after those read already. */
  function ReadItems(s: string, depth: nat, read: seq<Value>): (p: Parsed<Value>)
    ensures |p.rest| <= |s| && (p.Parsed? ==> |p.rest| < |s|)
    decreases |s|, 1
  {
    var item := ReadValue(SkipSpace(s), depth + 1);
    if item.Failed? then item
    else
      var t := SkipSpace(item.rest);
      if t == [] then Failed(t)
      else if t[0] == ',' then ReadItems(t[1..], depth, read + [item.value])
      else if t[0] == ']' then Parsed(Arr(read + [item.value]), t[1..])
      else Failed(t)
  }

  /** A key and its colon. */
  function ReadKey(s: string): (p: Parsed<string>)
    ensures |p.rest| <= |s| && (p.Parsed? ==> |p.rest| < |s|)
  {
    var t := SkipSpace(s);
    if t == [] || t[0] != '"' then Failed(t)
    else
      var key := ReadString(t[1..], []);
      if key.Failed? then key
      else
        var u := SkipSpace(key.rest);
        if u == [] || u[0] != ':' then Failed(u) else Parsed(key.value, SkipSpace(u[1..]))
  }

  /** The fields of an object from here to its end; a key that comes again replaces what it had. */
  function ReadFields(s: string, depth: nat, read: map<string, Value>): (p: Parsed<Value>)
    ensures |p.rest| <= |s| && (p.Parsed? ==> |p.rest| < |s|)
    decreases |s|, 1
  {
    var key := ReadKey(s);
    if key.Failed? then Failed(key.rest)
    else
      var field := ReadValue(key.rest, depth + 1);
      if field.Failed? then field
      else
        var t := SkipSpace(field.rest);
        if t == [] then Failed(t)
        else if t[0] == ',' then ReadFields(t[1..], depth, read[key.value := field.value])
        else if t[0] == '}' then Parsed(Obj(read[key.value := field.value]), t[1..])
        else Failed(t)
  }

  function WithoutMark(text: string): string {
    if 3 <= |text| && text[0] == Byte(0xEF) && text[1] == Byte(0xBB) && text[2] == Byte(0xBF) then text[3..] else text
  }

  /** A whole file: one value, and nothing but space around it. */
  function ReadFile(text: string): Option<Value> {
    var p := ReadValue(SkipSpace(WithoutMark(text)), 0);
    if p.Failed? || SkipSpace(p.rest) != [] then None else Some(p.value)
  }

  /** Where reading a file comes to an end: after it, or where it cannot go on. */
  function StopsAt(text: string): (k: nat)
    ensures k <= |text|
  {
    var p := ReadValue(SkipSpace(text), 0);
    |text| - |if p.Failed? then p.rest else SkipSpace(p.rest)|
  }
}
