/**
 Lines and columns. A place in a text is known by its line and its column; the parser counts both as it goes, and
 after a high surrogate whose second half is none it goes back without counting back. Its column is then six too
 many for each such escape on the line.
 */
module JsonPlaces {
  import opened Options
  import opened JsonGrammar

  function LineAt(s: string): (line: nat)
    ensures 1 <= line
  {
    if s == [] then 1 else LineAt(s[..|s| - 1]) + if s[|s| - 1] == '\n' then 1 else 0
  }

  /** The column after `s`: the first after a newline, otherwise the next. */
  function ColumnAt(s: string): (column: nat)
    ensures 1 <= column
  {
    if s == [] || s[|s| - 1] == '\n' then 1 else ColumnAt(s[..|s| - 1]) + 1
  }

  /** An escape begins at a backslash that no escape before it takes. */
  predicate Escapes(text: string, i: nat)
    requires i < |text|
  {
    text[i] == '\\' && (i == 0 || !Escapes(text, i - 1))
  }

  predicate Unicode(text: string, i: nat)
    requires i <= |text|
  {
    i + 2 <= |text| && text[i] == '\\' && text[i + 1] == 'u' && Hex4(text[i + 2..]).Some?
  }

  /** The escape of a high surrogate, with another escape after it that is no low one: the parser comes back from it. */
  predicate Unpaired(text: string, i: nat)
    requires i < |text|
  {
    && Escapes(text, i) && Unicode(text, i) && IsHigh(Hex4(text[i + 2..]).value)
    && Unicode(text, i + 6) && !IsLow(Hex4(text[i + 8..]).value)
  }

  function Once(b: bool): nat {
    if b then 1 else 0
  }

  /** How many of them end on the line of `p`, at `p` or before. */
  function Unpairs(text: string, p: nat): nat
    requires p <= |text|
  {
    if p == 0 || text[p - 1] == '\n' then 0 else Unpairs(text, p - 1) + Once(6 <= p && Unpaired(text, p - 6))
  }

  /** All of `text` from `i` to `p` is on one line. */
  predicate OneLine(text: string, i: nat, p: nat)
    requires p <= |text|
  {
    forall j | i <= j < p :: text[j] != '\n'
  }

  predicate UnpairedBefore(text: string, i: nat, p: nat)
    requires p <= |text|
  {
    i + 6 <= p && OneLine(text, i + 6, p) && Unpaired(text, i)
  }

  lemma HexDigits(text: string, p: nat)
    requires p <= |text| && Hex4(text[p..]).Some?
    ensures p + 4 <= |text| && forall j | p <= j < p + 4 :: text[j] != '\n' && text[j] != '\\'
  {
    var s := text[p..];
    assert s[0] == text[p] && s[1] == text[p + 1] && s[2] == text[p + 2] && s[3] == text[p + 3];
  }

  lemma {:induction false} NoUnpairsIff(text: string, p: nat)
    requires p <= |text|
    ensures Unpairs(text, p) == 0 <==> forall i: nat :: !UnpairedBefore(text, i, p)
  {
    if p != 0 && text[p - 1] != '\n' {
      NoUnpairsIff(text, p - 1);
      forall i: nat ensures UnpairedBefore(text, i, p) <==>
        UnpairedBefore(text, i, p - 1) || (i + 6 == p && Unpaired(text, i))
      {
      }
      assert 6 <= p && Unpaired(text, p - 6) ==> UnpairedBefore(text, p - 6, p);
    } else if p != 0 {
      forall i: nat ensures !UnpairedBefore(text, i, p) {
        if i + 6 == p && Unpaired(text, i) {
          HexDigits(text, i + 2);
        }
      }
    }
  }

  /** A line and a column belong to one place. */
  lemma {:induction false} OnePlace(text: string, p: nat, q: nat)
    requires p <= |text| && q <= |text|
    requires LineAt(text[..p]) == LineAt(text[..q]) && ColumnAt(text[..p]) == ColumnAt(text[..q])
    ensures p == q
  {
    if p < q {
      Apart(text, p, q);
    } else if q < p {
      Apart(text, q, p);
    }
  }

  lemma {:induction false} Apart(text: string, p: nat, q: nat)
    requires p < q <= |text|
    ensures LineAt(text[..p]) < LineAt(text[..q]) ||
            (LineAt(text[..p]) == LineAt(text[..q]) && ColumnAt(text[..p]) < ColumnAt(text[..q]))
    decreases q
  {
    assert text[..q][..q - 1] == text[..q - 1];
    if p < q - 1 {
      Apart(text, p, q - 1);
    }
  }

  // ----- what the parser keeps -------------------------------------------------------------------

  /** No escape that begins before `p` reaches past it. */
  predicate Clear(text: string, p: nat)
    requires p <= |text|
  {
    forall i: nat | i < p && Escapes(text, i) :: i + 2 <= p && (text[i + 1] == 'u' ==> i + 6 <= p)
  }

  /** A character that is no backslash. */
  lemma Plain(text: string, p: nat)
    requires p < |text| && Clear(text, p) && text[p] != '\\'
    ensures Clear(text, p + 1) && Unpairs(text, p + 1) == if text[p] == '\n' then 0 else Unpairs(text, p)
  {
  }

  /** The backslash of an escape. */
  lemma Backslash(text: string, p: nat)
    requires p < |text| && Clear(text, p) && text[p] == '\\'
    ensures Escapes(text, p) && Unpairs(text, p + 1) == Unpairs(text, p)
  {
  }

  /** And what it escapes. */
  lemma Escaped(text: string, p: nat)
    requires p + 2 <= |text| && Clear(text, p) && text[p] == '\\'
    ensures Unpairs(text, p + 2) == if text[p + 1] == '\n' then 0 else Unpairs(text, p)
    ensures text[p + 1] != 'u' ==> Clear(text, p + 2)
  {
    Backslash(text, p);
  }

  /** Past the digits of a `\u` escape. */
  lemma Digits(text: string, p: nat, k: nat)
    requires p + 2 <= |text| && Clear(text, p) && Unicode(text, p) && k <= 4
    ensures p + 6 <= |text|
    ensures Unpairs(text, p + 2 + k) == Unpairs(text, p) + Once(k == 4 && Unpaired(text, p))
  {
    HexDigits(text, p + 2);
    if k == 0 {
      Escaped(text, p);
    } else {
      Digits(text, p, k - 1);
    }
  }

  lemma UnicodeDone(text: string, p: nat)
    requires p + 2 <= |text| && Clear(text, p) && Unicode(text, p)
    ensures p + 6 <= |text| && Clear(text, p + 6)
    ensures Unpairs(text, p + 6) == Unpairs(text, p) + Once(Unpaired(text, p))
  {
    HexDigits(text, p + 2);
    Backslash(text, p);
    Digits(text, p, 4);
  }

  /** The escape of a high surrogate at `p`, and one after it without its digits. */
  lemma SecondMissing(text: string, p: nat)
    requires p + 8 <= |text| && Clear(text, p) && Unicode(text, p) && text[p + 6] == '\\' && text[p + 7] == 'u'
    requires Hex4(text[p + 8..]).None?
    ensures Unpairs(text, p + 8) == Unpairs(text, p)
  {
    UnicodeDone(text, p);
    Escaped(text, p + 6);
  }

  /** Or with them. */
  lemma SecondThere(text: string, p: nat)
    requires p + 6 <= |text| && Clear(text, p) && Unicode(text, p) && IsHigh(Hex4(text[p + 2..]).value)
    requires Unicode(text, p + 6)
    ensures if IsLow(Hex4(text[p + 8..]).value)
      then p + 12 <= |text| && Clear(text, p + 12) && Unpairs(text, p + 12) == Unpairs(text, p)
      else Clear(text, p + 6) && Unpaired(text, p) && Unpairs(text, p + 6) == Unpairs(text, p) + 1
  {
    UnicodeDone(text, p);
    Backslash(text, p);
    UnicodeDone(text, p + 6);
  }

  /** Neither line nor count changes where there is no newline. */
  lemma {:induction false} Along(text: string, p: nat, q: nat)
    requires p <= q <= |text| && OneLine(text, p, q)
    ensures LineAt(text[..q]) == LineAt(text[..p]) && ColumnAt(text[..q]) == ColumnAt(text[..p]) + (q - p)
    decreases q
  {
    if p < q {
      Along(text, p, q - 1);
      assert text[..q][..q - 1] == text[..q - 1];
    }
  }

  // ----- a column that is wrong --------------------------------------------------------------------

  const SPLIT: string := "\"\\uD800\\u0041"

  /** An unclosed string of thirteen characters, a high surrogate and the escape of a letter: reading stops at column 14,
      and the parser says 20. */
  lemma WrongColumn()
    ensures WithoutMark(SPLIT) == SPLIT && ReadFile(SPLIT) == None
    ensures StopsAt(SPLIT) == 13 == |SPLIT| && LineAt(SPLIT) == 1
    ensures ColumnAt(SPLIT) == 14 && ColumnAt(SPLIT) + 6 * Unpairs(SPLIT, 13) == 20
  {
    SplitReads();
    Along(SPLIT, 0, 13);
    assert SPLIT[..0] == "" && SPLIT[..13] == SPLIT;
    SplitOnce();
  }

  lemma SplitReads()
    ensures ReadValue(SkipSpace(SPLIT), 0) == Failed("")
  {
    var a: string, b: string := "uD800\\u0041", "u0041";
    HighReads();
    LetterReads();
    assert ['\\'] + b == "\\u0041" && ['"'] + (['\\'] + a) == SPLIT;
    Unclosed(a, b, Utf8(0xD800), Utf8(0x41));
  }

  /** A string of two escapes that is not closed. */
  lemma Unclosed(a: string, b: string, x: string, y: string)
    requires ReadEscape(a) == Parsed(x, ['\\'] + b) && ReadEscape(b) == Parsed(y, "")
    ensures ReadValue(SkipSpace(['"'] + (['\\'] + a)), 0) == Failed("")
  {
    var s := ['\\'] + a;
    assert ReadString("", x + y) == Failed("");
    assert (['\\'] + b)[1..] == b && ReadString(['\\'] + b, x) == Failed("");
    assert s[1..] == a && [] + x == x && ReadString(s, []) == Failed("");
    assert (['"'] + s)[1..] == s;
  }

  lemma HighReads()
    ensures ReadEscape("uD800\\u0041") == Parsed(Utf8(0xD800), "\\u0041")
  {
    var s: string := "uD800\\u0041";
    assert s[1..] == "D800\\u0041" && s[1..][4..] == "\\u0041" && "\\u0041"[2..] == "0041";
    assert Hex4("D800\\u0041") == Some(0xD800) && Hex4("0041") == Some(0x41);
  }

  lemma LetterReads()
    ensures ReadEscape("u0041") == Parsed(Utf8(0x41), "")
  {
    var s: string := "u0041";
    assert s[1..] == "0041" && s[1..][4..] == "";
    assert Hex4("0041") == Some(0x41);
  }

  lemma SplitOnce()
    ensures Unpairs(SPLIT, 13) == 1
  {
    assert SPLIT[3..][..4] == "D800" && SPLIT[9..] == "0041";
    assert !Escapes(SPLIT, 0) && Escapes(SPLIT, 1);
    assert Unpaired(SPLIT, 1);
    assert Unpairs(SPLIT, 6) == 0;
    assert Unpairs(SPLIT, 7) == 1;
    assert !Unpaired(SPLIT, 7);
    assert Unpairs(SPLIT, 10) == 1;
    assert Unpairs(SPLIT, 13) == 1;
  }
}
