/**
 JSON strings by their productions: the pieces a string is made of, the text of each and the bytes it stands for. What is
 read from a string is what its pieces stand for, and whatever is read is made of such pieces.
 */
module JsonPieces {
  import opened JsonGrammar
  import opened JsonRoundTrip
  import opened JsonMeanings

  /** A character of a string: as it is, by a letter, by four hex digits, or by twice four. */
  datatype Piece = Plain(c: char) | Letter(c: char) | Code(digits: string) | Pair(high: string, low: string)

  function PieceText(p: Piece): string {
    match p
    case Plain(c) => [c]
    case Letter(c) => ['\\', c]
    case Code(digits) => "\\u" + digits
    case Pair(high, low) => "\\u" + high + ("\\u" + low)
  }

  /** The text of the pieces, and then `tail`; so for all below. */
  function PiecesThen(ps: seq<Piece>, tail: string): string {
    if ps == [] then tail else PieceText(ps[0]) + PiecesThen(ps[1..], tail)
  }

  function QuotedThen(ps: seq<Piece>, tail: string): string {
    "\"" + PiecesThen(ps, "\"" + tail)
  }

  predicate IsCode(digits: string, part: nat -> bool) {
    Hex4(digits).Some? && |digits| == 4 && part(Hex4(digits).value)
  }

  predicate PieceFits(p: Piece) {
    match p
    case Plain(c) => c != '"' && c != '\\' && ' ' <= c
    case Letter(c) => c in Escapes()
    case Code(digits) => IsCode(digits, _ => true)
    case Pair(high, low) => IsCode(high, IsHigh) && IsCode(low, IsLow)
  }

  /** The two halves of a pair in a row are a pair. */
  predicate Halves(p: Piece, q: Piece) {
    p.Code? && q.Code? && IsCode(p.digits, IsHigh) && IsCode(q.digits, IsLow)
  }

  predicate PiecesFit(ps: seq<Piece>) {
    ps == [] || (PieceFits(ps[0]) && PiecesFit(ps[1..]) && (1 < |ps| ==> !Halves(ps[0], ps[1])))
  }

  function PieceBytes(p: Piece): string
    requires PieceFits(p)
  {
    match p
    case Plain(c) => [c]
    case Letter(c) => [Escapes()[c] as char]
    case Code(digits) => Utf8(Hex4(digits).value)
    case Pair(high, low) => Utf8(0x10000 + (Hex4(high).value - 0xD800) * 0x400 + (Hex4(low).value - 0xDC00))
  }

  function Bytes(ps: seq<Piece>): string
    requires PiecesFit(ps)
  {
    if ps == [] then [] else PieceBytes(ps[0]) + Bytes(ps[1..])
  }

  // ----- reading them -----------------------------------------------------------------------------

  predicate StartsCode(s: string) {
    2 <= |s| && s[0] == '\\' && s[1] == 'u'
  }

  /** What follows `\u` and four digits does not make a pair of it. */
  predicate Alone(digits: string, rest: string) {
    IsCode(digits, IsHigh) && StartsCode(rest) ==> Hex4(rest[2..]).Some? && !IsLow(Hex4(rest[2..]).value)
  }

  lemma {:induction false} PieceReads(p: Piece, rest: string, read: string)
    requires PieceFits(p) && (p.Code? ==> Alone(p.digits, rest))
    ensures ReadString(PieceText(p) + rest, read) == ReadString(rest, read + PieceBytes(p))
  {
    match p
    case Plain(c) => PlainReadsBack(c, rest, read);
    case Letter(c) => LetterGoesOn(c, rest, read);
    case Code(digits) => CodeGoesOn(digits, rest, read);
    case Pair(high, low) => PairGoesOn(high, low, rest, read);
  }

  lemma {:induction false} EscapeGoesOn(escape: string, bytes: string, rest: string, read: string)
    requires ReadEscape(escape + rest) == Parsed(bytes, rest)
    ensures ReadString("\\" + (escape + rest), read) == ReadString(rest, read + bytes)
  {
    assert ("\\" + (escape + rest))[1..] == escape + rest;
  }

  lemma {:induction false} LetterGoesOn(c: char, rest: string, read: string)
    requires PieceFits(Letter(c))
    ensures ReadString(PieceText(Letter(c)) + rest, read) == ReadString(rest, read + PieceBytes(Letter(c)))
  {
    LetterReads(c, rest);
    EscapeGoesOn([c], PieceBytes(Letter(c)), rest, read);
    assert "\\" + ([c] + rest) == ['\\', c] + rest;
  }

  lemma {:induction false} CodeGoesOn(digits: string, rest: string, read: string)
    requires PieceFits(Code(digits)) && Alone(digits, rest)
    ensures ReadString(PieceText(Code(digits)) + rest, read) == ReadString(rest, read + PieceBytes(Code(digits)))
  {
    CodeReads(digits, rest);
    EscapeGoesOn("u" + digits, PieceBytes(Code(digits)), rest, read);
    assert "\\" + ("u" + digits + rest) == "\\u" + digits + rest;
  }

  lemma {:induction false} PairGoesOn(high: string, low: string, rest: string, read: string)
    requires PieceFits(Pair(high, low))
    ensures ReadString(PieceText(Pair(high, low)) + rest, read) == ReadString(rest, read + PieceBytes(Pair(high, low)))
  {
    TwoRead(high, low, rest);
    assert "u" + high + ("\\u" + low + rest) == "u" + high + ("\\u" + low) + rest;
    EscapeGoesOn("u" + high + ("\\u" + low), PieceBytes(Pair(high, low)), rest, read);
    assert "\\" + ("u" + high + ("\\u" + low) + rest) == "\\u" + high + ("\\u" + low) + rest;
  }

  lemma {:induction false} CodeReads(digits: string, rest: string)
    requires IsCode(digits, _ => true) && Alone(digits, rest)
    ensures ReadEscape("u" + digits + rest) == Parsed(Utf8(Hex4(digits).value), rest)
  {
    AfterU(digits, rest);
    SameHex(digits, rest);
  }

  lemma {:induction false} TwoRead(high: string, low: string, rest: string)
    requires IsCode(high, IsHigh) && IsCode(low, IsLow)
    ensures ReadEscape("u" + high + ("\\u" + low + rest)) == Parsed(PieceBytes(Pair(high, low)), rest)
  {
    var code := 0x10000 + (Hex4(high).value - 0xD800) * 0x400 + (Hex4(low).value - 0xDC00);
    PairReads(high, low, code, rest);
  }

  lemma {:induction false} StandsAlone(digits: string, ps: seq<Piece>, tail: string)
    requires IsCode(digits, _ => true) && PiecesFit([Code(digits)] + ps)
    ensures Alone(digits, PiecesThen(ps, "\"" + tail))
  {
    var rest := PiecesThen(ps, "\"" + tail);
    assert ([Code(digits)] + ps)[1..] == ps;
    if IsCode(digits, IsHigh) && StartsCode(rest) {
      assert ps != [];
      NextIsCode(ps[0], PiecesThen(ps[1..], "\"" + tail));
      assert ([Code(digits)] + ps)[1] == ps[0];
    }
  }

  lemma {:induction false} NextIsCode(p: Piece, after: string)
    requires PieceFits(p) && StartsCode(PieceText(p) + after)
    ensures p.Code? || p.Pair?
    ensures var digits := if p.Code? then p.digits else p.high; Hex4((PieceText(p) + after)[2..]) == Hex4(digits)
  {
    var s := PieceText(p) + after;
    if p.Code? {
      assert s[2..] == p.digits + after;
      SameHex(p.digits, after);
    } else if p.Pair? {
      assert s[2..] == p.high + ("\\u" + p.low + after);
      SameHex(p.high, "\\u" + p.low + after);
    }
  }

  lemma {:induction false} StringReads(ps: seq<Piece>, read: string, tail: string)
    requires PiecesFit(ps)
    ensures ReadString(PiecesThen(ps, "\"" + tail), read) == Parsed(read + Bytes(ps), tail)
    decreases |ps|
  {
    if ps == [] {
      assert ("\"" + tail)[1..] == tail && read + [] == read;
    } else {
      if ps[0].Code? {
        assert [ps[0]] + ps[1..] == ps;
        StandsAlone(ps[0].digits, ps[1..], tail);
      }
      PieceReads(ps[0], PiecesThen(ps[1..], "\"" + tail), read);
      StringReads(ps[1..], read + PieceBytes(ps[0]), tail);
      assert read + PieceBytes(ps[0]) + Bytes(ps[1..]) == read + Bytes(ps);
    }
  }

  /** The piece an escape makes. */
  lemma {:induction false} PieceOf(s: string) returns (p: Piece)
    requires ReadEscape(s).Parsed?
    ensures PieceFits(p) && "\\" + s == PieceText(p) + ReadEscape(s).rest && ReadEscape(s).value == PieceBytes(p)
    ensures p.Code? ==> Alone(p.digits, ReadEscape(s).rest)
  {
    if s[0] != 'u' {
      p := LetterOf(s);
    } else {
      p := UnicodeOf(s[1..]);
      FromU(s);
    }
  }

  lemma FromU(s: string)
    requires s != [] && s[0] == 'u'
    ensures "\\" + s == "\\u" + s[1..]
  {
  }

  lemma {:induction false} LetterOf(s: string) returns (p: Piece)
    requires ReadEscape(s).Parsed? && s[0] != 'u'
    ensures p.Letter? && PieceFits(p)
    ensures "\\" + s == PieceText(p) + ReadEscape(s).rest && ReadEscape(s).value == PieceBytes(p)
  {
    p := Letter(s[0]);
    assert s == [s[0]] + s[1..];
    LetterReads(s[0], s[1..]);
    assert "\\" + ([s[0]] + s[1..]) == ['\\', s[0]] + s[1..];
  }

  lemma CodeThen(digits: string, r: string)
    ensures "\\u" + (digits + r) == PieceText(Code(digits)) + r
  {
  }

  lemma PairThen(high: string, low: string, r: string)
    ensures "\\u" + (high + ("\\u" + (low + r))) == PieceText(Pair(high, low)) + r
  {
  }

  lemma {:induction false} UnicodeOf(s: string) returns (p: Piece)
    requires ReadUnicode(s).Parsed?
    ensures PieceFits(p) && "\\u" + s == PieceText(p) + ReadUnicode(s).rest && ReadUnicode(s).value == PieceBytes(p)
    ensures p.Code? ==> Alone(p.digits, ReadUnicode(s).rest)
  {
    var digits, r := s[..4], s[4..];
    assert s == digits + r;
    SameHex(digits, r);
    if IsHigh(Hex4(s).value) && StartsCode(r) && IsLow(Hex4(r[2..]).value) {
      p := LowOf(digits, r);
    } else {
      p := Code(digits);
      CodeThen(digits, r);
    }
  }

  lemma {:induction false} LowOf(high: string, r: string) returns (p: Piece)
    requires IsCode(high, IsHigh) && StartsCode(r) && Hex4(r[2..]).Some? && IsLow(Hex4(r[2..]).value)
    ensures PieceFits(p) && p.Pair? && "\\u" + (high + r) == PieceText(p) + r[2..][4..]
    ensures Parsed(PieceBytes(p), r[2..][4..]) == ReadLow(Hex4(high).value, r)
  {
    var low, rest := r[2..][..4], r[2..][4..];
    assert r[2..] == low + rest;
    SameHex(low, rest);
    p := Pair(high, low);
    assert r == "\\u" + (low + rest);
    PairThen(high, low, rest);
  }

  lemma {:induction false} PiecesOf(s: string, read: string) returns (ps: seq<Piece>)
    requires ReadString(s, read).Parsed?
    ensures PiecesFit(ps) && s == PiecesThen(ps, "\"" + ReadString(s, read).rest)
    ensures ReadString(s, read).value == read + Bytes(ps)
    decreases |s|
  {
    if s[0] == '"' {
      ps := [];
      assert s == "\"" + s[1..] && read + [] == read;
    } else if s[0] == '\\' {
      var e := ReadEscape(s[1..]);
      var p := PieceOf(s[1..]);
      assert s == "\\" + s[1..];
      var rest := PiecesOf(e.rest, read + e.value);
      ps := [p] + rest;
      Prepended(p, rest, "\"" + ReadString(s, read).rest, read);
    } else {
      var rest := PiecesOf(s[1..], read + [s[0]]);
      ps := [Plain(s[0])] + rest;
      assert s == [s[0]] + s[1..];
      Prepended(Plain(s[0]), rest, "\"" + ReadString(s, read).rest, read);
    }
  }

  lemma {:induction false} Prepended(p: Piece, ps: seq<Piece>, tail: string, read: string)
    requires PieceFits(p) && PiecesFit(ps) && (p.Code? ==> Alone(p.digits, PiecesThen(ps, tail)))
    ensures PiecesFit([p] + ps) && PiecesThen([p] + ps, tail) == PieceText(p) + PiecesThen(ps, tail)
    ensures read + Bytes([p] + ps) == read + PieceBytes(p) + Bytes(ps)
  {
    assert ([p] + ps)[1..] == ps;
    if ps != [] && Halves(p, ps[0]) {
      NotAlone(p.digits, ps[0].digits, PiecesThen(ps[1..], tail));
    }
    Regrouped(read, PieceBytes(p), Bytes(ps));
  }

  lemma NotAlone(high: string, low: string, after: string)
    requires IsCode(high, IsHigh) && IsCode(low, IsLow)
    ensures !Alone(high, PieceText(Code(low)) + after)
  {
    assert (PieceText(Code(low)) + after)[2..] == low + after;
    SameHex(low, after);
  }
}
