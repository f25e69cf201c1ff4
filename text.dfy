/** Text values as the system handles them: table cells, Python's str() of a cell, str.strip(),
    decimal rendering and parsing, and Python's string ordering (code point by code point). */
module Text {
  import opened Wrappers

  /** One cell of a pandas frame: a missing value, an integer or a text. */
  datatype Cell = Null | Int(i: int) | Str(s: string)

  /** Python renders a missing object cell (None) as "None". */
  const NullText: string := "None"

  // ---------------------------------------------------------------------------
  // Decimal digits

  function DigitChar(d: nat): (c: char)
    requires d < 10
    ensures '0' <= c <= '9'
  {
    ('0' as int + d) as char
  }

  predicate IsDigit(c: char) { '0' <= c <= '9' }

  function DigitValue(c: char): (d: nat)
    requires IsDigit(c)
    ensures d < 10 && DigitChar(d) == c
    ensures forall e :: 0 <= e < 10 && DigitChar(e) == c ==> e == d
  {
    (c as int - '0' as int) as nat
  }

  /** str(n) for a natural number. */
  function NatToString(n: nat): (s: string)
    ensures |s| > 0
    decreases n
  {
    if n < 10 then [DigitChar(n)] else NatToString(n / 10) + [DigitChar(n % 10)]
  }

  lemma {:induction false} NatToStringDigits(n: nat)
    ensures AllDigits(NatToString(n))
    decreases n
  {
    if n >= 10 { NatToStringDigits(n / 10); }
  }

  /** str(i) for an integer. */
  function IntToString(i: int): (s: string)
    ensures |s| > 0
  {
    if i < 0 then "-" + NatToString(-i) else NatToString(i)
  }

  /** The value of a non-empty run of decimal digits. */
  function DigitsValue(s: string): nat
    requires forall i :: 0 <= i < |s| ==> IsDigit(s[i])
  {
    if |s| == 0 then 0 else 10 * DigitsValue(s[..|s| - 1]) + DigitValue(s[|s| - 1])
  }

  predicate AllDigits(s: string) { |s| > 0 && forall i :: 0 <= i < |s| ==> IsDigit(s[i]) }

  /** The integer a text denotes when it is an optional sign followed by decimal digits. */
  function ParseInt(s: string): (r: Option<int>)
    ensures r.Some? ==> |s| > 0
  {
    if |s| > 0 && (s[0] == '-' || s[0] == '+') && AllDigits(s[1..]) then
      Some(if s[0] == '-' then -(DigitsValue(s[1..]) as int) else DigitsValue(s[1..]))
    else if AllDigits(s) then Some(DigitsValue(s))
    else None
  }

  /** Appending a digit multiplies the value by ten and adds the digit. */
  lemma DigitsValueSnoc(s: string, d: nat)
    requires d < 10 && forall i :: 0 <= i < |s| ==> IsDigit(s[i])
    ensures forall i :: 0 <= i < |s| + 1 ==> IsDigit((s + [DigitChar(d)])[i])
    ensures DigitsValue(s + [DigitChar(d)]) == 10 * DigitsValue(s) + d
  {
    var t := s + [DigitChar(d)];
    assert t[..|t| - 1] == s;
  }

  lemma {:induction false} DigitsValueOfNatToString(n: nat)
    ensures AllDigits(NatToString(n)) && DigitsValue(NatToString(n)) == n
    decreases n
  {
    var s := NatToString(n);
    NatToStringDigits(n);
    if n < 10 {
      assert s[..|s| - 1] == [];
    } else {
      NatToStringDigits(n / 10);
      DigitsValueOfNatToString(n / 10);
      assert s[..|s| - 1] == NatToString(n / 10);
    }
  }

  /** Parsing the rendering of an integer gives the integer back. */
  lemma ParseIntOfIntToString(i: int)
    ensures ParseInt(IntToString(i)) == Some(i)
  {
    if i < 0 {
      var n := NatToString(-i);
      var s := "-" + n;
      assert s[1..] == n;
      DigitsValueOfNatToString(-i);
      assert s[0] == '-' && AllDigits(s[1..]);
      assert ParseInt(s) == Some(-(DigitsValue(n) as int));
    } else {
      var s := NatToString(i);
      DigitsValueOfNatToString(i);
      assert IsDigit(s[0]);
      assert s[0] != '-' && s[0] != '+';
    }
  }

  /** The text of an integer starts with '-' or a digit and ends with a digit, never a blank. */
  lemma IntToStringEnds(i: int)
    ensures var s := IntToString(i); !IsAsciiSpace(s[0]) && !IsAsciiSpace(s[|s| - 1])
  {
    var m: nat := if i < 0 then -i else i;
    var n := NatToString(m);
    NatToStringDigits(m);
    assert IsDigit(n[0]) && IsDigit(n[|n| - 1]);
    if i < 0 {
      assert IntToString(i) == "-" + n;
      assert ("-" + n)[|n|] == n[|n| - 1];
    }
  }

  // ---------------------------------------------------------------------------
  // Cells

  /** str(cell): what the source obtains with .astype(str) or str(...). */
  function CellText(c: Cell): (s: string)
    ensures c.Str? ==> s == c.s
    ensures c.Null? ==> s == NullText
  {
    match c
    case Null => NullText
    case Int(i) => IntToString(i)
    case Str(s) => s
  }

  /** str() of an integer cell reads back as the same integer. */
  lemma CellTextOfInt(c: Cell)
    requires c.Int?
    ensures ParseInt(CellText(c)) == Some(c.i)
  {
    ParseIntOfIntToString(c.i);
  }

  /** pd.to_numeric(cell, errors='coerce') followed by int(): None stands for NaN. A text is
      read as pandas' number parser reads it, past the ASCII blanks at either end. */
  function ToNumeric(c: Cell): (r: Option<int>)
    ensures c.Null? ==> r.None?
    ensures c.Int? ==> r == Some(c.i)
    ensures c.Str? ==> r == ParseInt(TrimAscii(c.s))
  {
    match c
    case Null => None
    case Int(i) => Some(i)
    case Str(s) => ParseInt(TrimAscii(s))
  }

  /** An integer's text, with any ASCII blanks around it, coerces to that integer. */
  lemma ToNumericOfPaddedInt(pre: string, i: int, post: string)
    requires forall j :: 0 <= j < |pre| ==> IsAsciiSpace(pre[j])
    requires forall j :: 0 <= j < |post| ==> IsAsciiSpace(post[j])
    ensures ToNumeric(Str(pre + IntToString(i) + post)) == Some(i)
  {
    var n := IntToString(i);
    IntToStringEnds(i);
    TrimAsciiPadded(pre, n, post);
    ParseIntOfIntToString(i);
  }

  /** A text of ASCII blanks only, the empty text included, coerces to NaN. */
  lemma ToNumericOfBlank(s: string)
    requires forall j :: 0 <= j < |s| ==> IsAsciiSpace(s[j])
    ensures ToNumeric(Str(s)) == None
  {
    TrimAsciiBlank(s);
  }

  /** limpar_texto on a cell: a text goes through the normaliser, anything else is returned as is.
      The normaliser (upper-casing, NFKD, ASCII folding) is a parameter of the model. */
  function CleanText(c: Cell, normalise: string -> string): (r: Cell)
    ensures !c.Str? ==> r == c
    ensures c.Str? ==> r.Str? && r.s == normalise(c.s)
  {
    match c
    case Str(s) => Str(normalise(s))
    case _ => c
  }

  // ---------------------------------------------------------------------------
  // Whitespace and str.strip()

  /** Python's str.isspace() on one character: the ASCII blanks, the separators U+001C to
      U+001F, NEL, the no-break space and the Unicode space separators. */
  predicate IsSpace(c: char) {
    ('\t' <= c <= '\r') || ('\U{1C}' <= c <= ' ') || c == '\U{85}' || c == '\U{A0}' || c == '\U{1680}'
    || ('\U{2000}' <= c <= '\U{200A}') || c == '\U{2028}' || c == '\U{2029}' || c == '\U{202F}'
    || c == '\U{205F}' || c == '\U{3000}'
  }

  /** The blanks pandas' number parser skips around a number: space, \t, \n, \v, \f and \r. */
  predicate IsAsciiSpace(c: char) {
    c == ' ' || c == '\t' || c == '\n' || c == '\r' || c == '\U{0B}' || c == '\U{0C}'
  }

  /** The text without the ASCII blanks at either end. */
  function TrimAscii(s: string): (r: string)
    ensures |r| <= |s|
    ensures |r| > 0 ==> !IsAsciiSpace(r[0]) && !IsAsciiSpace(r[|r| - 1])
  {
    if |s| > 0 && IsAsciiSpace(s[0]) then TrimAscii(s[1..])
    else if |s| > 0 && IsAsciiSpace(s[|s| - 1]) then TrimAscii(s[..|s| - 1])
    else s
  }

  /** Blanks around a text that neither starts nor ends with one are all that TrimAscii drops. */
  lemma {:induction false} TrimAsciiPadded(pre: string, n: string, post: string)
    requires |n| > 0 && !IsAsciiSpace(n[0]) && !IsAsciiSpace(n[|n| - 1])
    requires forall j :: 0 <= j < |pre| ==> IsAsciiSpace(pre[j])
    requires forall j :: 0 <= j < |post| ==> IsAsciiSpace(post[j])
    ensures TrimAscii(pre + n + post) == n
    decreases |pre| + |post|
  {
    var s := pre + n + post;
    if |pre| > 0 {
      assert s[0] == pre[0];
      assert s[1..] == pre[1..] + n + post;
      TrimAsciiPadded(pre[1..], n, post);
    } else if |post| > 0 {
      assert s[0] == n[0];
      assert s[|s| - 1] == post[|post| - 1];
      assert s[..|s| - 1] == pre + n + post[..|post| - 1];
      TrimAsciiPadded(pre, n, post[..|post| - 1]);
    } else {
      assert s == n;
    }
  }

  lemma {:induction false} TrimAsciiBlank(s: string)
    requires forall j :: 0 <= j < |s| ==> IsAsciiSpace(s[j])
    ensures TrimAscii(s) == ""
    decreases |s|
  {
    if |s| > 0 {
      assert IsAsciiSpace(s[0]);
      TrimAsciiBlank(s[1..]);
    }
  }

  /** s.lstrip() */
  function TrimLeft(s: string): string {
    if |s| > 0 && IsSpace(s[0]) then TrimLeft(s[1..]) else s
  }

  /** s.rstrip() */
  function TrimRight(s: string): string {
    if |s| > 0 && IsSpace(s[|s| - 1]) then TrimRight(s[..|s| - 1]) else s
  }

  /** lstrip() removes exactly the leading whitespace. */
  lemma {:induction false} TrimLeftShape(s: string)
    ensures var r := TrimLeft(s);
            && |r| <= |s| && r == s[|s| - |r|..]
            && (forall i :: 0 <= i < |s| - |r| ==> IsSpace(s[i]))
            && (|r| > 0 ==> !IsSpace(r[0]))
  {
    if |s| > 0 && IsSpace(s[0]) { TrimLeftShape(s[1..]); }
  }

  /** rstrip() removes exactly the trailing whitespace. */
  lemma {:induction false} TrimRightShape(s: string)
    ensures var r := TrimRight(s);
            && |r| <= |s| && r == s[..|r|]
            && (forall i :: |r| <= i < |s| ==> IsSpace(s[i]))
            && (|r| > 0 ==> !IsSpace(r[|r| - 1]))
  {
    if |s| > 0 && IsSpace(s[|s| - 1]) { TrimRightShape(s[..|s| - 1]); }
  }

  /** str.strip(): the text without leading and trailing whitespace. */
  function Strip(s: string): string {
    TrimRight(TrimLeft(s))
  }

  /** What strip() keeps is a slice of the text that neither starts nor ends with whitespace,
      and everything it drops is whitespace. */
  lemma StripShape(s: string)
    ensures var r := Strip(s);
            && |r| <= |TrimLeft(s)| <= |s|
            && (|r| > 0 ==> !IsSpace(r[0]) && !IsSpace(r[|r| - 1]))
            && s[|s| - |TrimLeft(s)|..][..|r|] == r
            && (forall i :: 0 <= i < |s| - |TrimLeft(s)| ==> IsSpace(s[i]))
            && (forall i :: |s| - |TrimLeft(s)| + |r| <= i < |s| ==> IsSpace(s[i]))
  {
    var l := TrimLeft(s);
    TrimLeftShape(s);
    TrimRightShape(l);
    var r := Strip(s);
    forall i | |s| - |l| + |r| <= i < |s| ensures IsSpace(s[i]) {
      assert s[i] == l[i - (|s| - |l|)];
    }
  }

  /** Stripping only removes characters: a character the text does not hold is not in the
      result either. */
  lemma StripKeepsAbsent(s: string, ch: char)
    requires ch !in s
    ensures ch !in Strip(s)
  {
    StripShape(s);
  }

  predicate Blank(s: string) { forall i :: 0 <= i < |s| ==> IsSpace(s[i]) }

  /** A text strips to "" exactly when it holds nothing but whitespace. */
  lemma StripEmptyIffBlank(s: string)
    ensures Strip(s) == "" <==> Blank(s)
  {
    var l := TrimLeft(s);
    TrimLeftShape(s);
    if Blank(s) {
      BlankTrimLeft(s);
    } else {
      var i :| 0 <= i < |s| && !IsSpace(s[i]);
      assert |l| > 0;
      assert !IsSpace(l[0]);
      TrimRightShape(l);
      assert TrimRight(l) != [];
    }
  }

  lemma {:induction false} BlankTrimLeft(s: string)
    requires Blank(s)
    ensures TrimLeft(s) == ""
  {
    if |s| > 0 {
      assert Blank(s[1..]) by {
        forall i | 0 <= i < |s[1..]| ensures IsSpace(s[1..][i]) { assert s[1..][i] == s[i + 1]; }
      }
      BlankTrimLeft(s[1..]);
    }
  }

  /** Stripping twice is stripping once. */
  lemma StripIdempotent(s: string)
    ensures Strip(Strip(s)) == Strip(s)
  {
    var r := Strip(s);
    StripShape(s);
    if |r| > 0 {
      assert TrimLeft(r) == r;
      assert TrimRight(r) == r;
    }
  }

  /** A text that neither starts nor ends with whitespace is its own strip. */
  lemma StripUntrimmed(s: string)
    requires |s| > 0 && !IsSpace(s[0]) && !IsSpace(s[|s| - 1])
    ensures Strip(s) == s
  {
  }

  /** Trailing blanks are dropped by rstrip(). */
  lemma TrimRightSpace(s: string)
    ensures TrimRight(s + " ") == TrimRight(s)
  {
    assert (s + " ")[..|s|] == s;
  }

  // ---------------------------------------------------------------------------
  // Searching and cutting

  /** The index of the first occurrence of c in s, if any. */
  function IndexOf(s: string, c: char): (r: Option<nat>)
    ensures r.Some? ==> r.value < |s| && s[r.value] == c && c !in s[..r.value]
    ensures r.None? <==> c !in s
  {
    if |s| == 0 then None
    else if s[0] == c then Some(0)
    else
      var t := IndexOf(s[1..], c);
      if t.Some? then
        assert s[..t.value + 1] == [s[0]] + s[1..][..t.value];
        Some(t.value + 1)
      else
        assert s == [s[0]] + s[1..];
        None
  }

  /** The first occurrence is the one IndexOf finds. */
  lemma IndexOfFirst(s: string, c: char, i: nat)
    requires i < |s| && s[i] == c && c !in s[..i]
    ensures IndexOf(s, c) == Some(i)
  {
  }

  /** The text with every '.' and '-' removed (CPF normalisation). */
  function RemoveDotsAndDashes(s: string): (r: string)
    ensures '.' !in r && '-' !in r
    ensures |r| <= |s|
  {
    if |s| == 0 then ""
    else (if s[0] == '.' || s[0] == '-' then "" else [s[0]]) + RemoveDotsAndDashes(s[1..])
  }

  /** Stripping the separators is idempotent: a normalised CPF normalises to itself. */
  lemma {:induction false} RemoveDotsAndDashesIdempotent(s: string)
    ensures RemoveDotsAndDashes(RemoveDotsAndDashes(s)) == RemoveDotsAndDashes(s)
  {
    var r := RemoveDotsAndDashes(s);
    RemoveDotsAndDashesFixes(r);
  }

  lemma {:induction false} RemoveDotsAndDashesFixes(s: string)
    requires '.' !in s && '-' !in s
    ensures RemoveDotsAndDashes(s) == s
  {
    if |s| > 0 {
      assert s[0] != '.' && s[0] != '-';
      assert '.' !in s[1..] && '-' !in s[1..];
      RemoveDotsAndDashesFixes(s[1..]);
      assert s == [s[0]] + s[1..];
    }
  }

  /** s.replace(a, b) for single characters. */
  function ReplaceChar(s: string, a: char, b: char): string {
    if |s| == 0 then "" else ReplaceChar(s[..|s| - 1], a, b) + [if s[|s| - 1] == a then b else s[|s| - 1]]
  }

  lemma {:induction false} ReplaceCharAppend(s: string, t: string, a: char, b: char)
    ensures ReplaceChar(s + t, a, b) == ReplaceChar(s, a, b) + ReplaceChar(t, a, b)
    decreases |t|
  {
    if |t| > 0 {
      assert (s + t)[..|s + t| - 1] == s + t[..|t| - 1];
      ReplaceCharAppend(s, t[..|t| - 1], a, b);
    } else {
      assert s + t == s;
    }
  }

  /** A text without the character is left as it is. */
  lemma {:induction false} ReplaceCharAbsent(s: string, a: char, b: char)
    requires a !in s
    ensures ReplaceChar(s, a, b) == s
  {
    if |s| > 0 {
      assert a !in s[..|s| - 1];
      ReplaceCharAbsent(s[..|s| - 1], a, b);
    }
  }

  /** s.split(c)[-1]: the text after the last c, or all of s when it holds no c. */
  function AfterLast(s: string, c: char): string {
    if |s| == 0 then ""
    else if s[|s| - 1] == c then ""
    else AfterLast(s[..|s| - 1], c) + [s[|s| - 1]]
  }

  /** The text after the last c of p + [c] + n is n when n holds no c. */
  lemma {:induction false} AfterLastOfSuffix(p: string, c: char, n: string)
    requires c !in n
    ensures AfterLast(p + [c] + n, c) == n
    decreases |n|
  {
    var s := p + [c] + n;
    if |n| > 0 {
      assert s[..|s| - 1] == p + [c] + n[..|n| - 1];
      assert s[|s| - 1] == n[|n| - 1];
      AfterLastOfSuffix(p, c, n[..|n| - 1]);
      assert n == n[..|n| - 1] + [n[|n| - 1]];
    }
  }

  // ---------------------------------------------------------------------------
  // Python's ordering of str: lexicographic by code point

  predicate StrLt(a: string, b: string)
  {
    if |a| == 0 then |b| > 0
    else if |b| == 0 then false
    else if a[0] != b[0] then a[0] < b[0]
    else StrLt(a[1..], b[1..])
  }

  predicate StrLe(a: string, b: string) { a == b || StrLt(a, b) }

  lemma {:induction false} StrLtIrreflexive(a: string)
    ensures !StrLt(a, a)
  {
    if |a| > 0 { StrLtIrreflexive(a[1..]); }
  }

  lemma {:induction false} StrLtTransitive(a: string, b: string, c: string)
    requires StrLt(a, b) && StrLt(b, c)
    ensures StrLt(a, c)
  {
    if |a| > 0 && |b| > 0 && |c| > 0 && a[0] == b[0] && b[0] == c[0] {
      StrLtTransitive(a[1..], b[1..], c[1..]);
    }
  }

  lemma {:induction false} StrLtTotal(a: string, b: string)
    requires a != b
    ensures StrLt(a, b) || StrLt(b, a)
  {
    if |a| > 0 && |b| > 0 && a[0] == b[0] {
      assert a == [a[0]] + a[1..] && b == [b[0]] + b[1..];
      StrLtTotal(a[1..], b[1..]);
    }
  }

  lemma StrLeTransitive(a: string, b: string, c: string)
    requires StrLe(a, b) && StrLe(b, c)
    ensures StrLe(a, c)
  {
    if a != b && b != c { StrLtTransitive(a, b, c); }
  }

  lemma StrLeTotal(a: string, b: string)
    ensures StrLe(a, b) || StrLe(b, a)
  {
    if a != b { StrLtTotal(a, b); }
  }

  /** Texts with a common prefix compare as their remainders do: comparing two position labels
      "AJUDANTE n" and "AJUDANTE m" is comparing n and m. */
  lemma {:induction false} StrLtCommonPrefix(p: string, a: string, b: string)
    ensures StrLt(p + a, p + b) <==> StrLt(a, b)
  {
    if |p| > 0 {
      assert (p + a)[0] == (p + b)[0];
      assert (p + a)[1..] == p[1..] + a && (p + b)[1..] == p[1..] + b;
      StrLtCommonPrefix(p[1..], a, b);
    } else {
      assert p + a == a && p + b == b;
    }
  }
}
