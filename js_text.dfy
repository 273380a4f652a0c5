/** The text path shared by the three scroll/size accessors that read a
    script result: a script joins two integers with `toString()` and one
    space, and the Python side runs `w, h = r.split(' ')` and `int(w), int(h)`.

    Split models Python's `str.split(sep)` with an explicit separator, PyInt
    models Python's `int(text)` in base 10, DecimalString models JavaScript's
    `Number.prototype.toString()` on an integral value. */
module JsText {
  import opened Common

  const Space: char := ' '

  // ---------------------------------------------------------------------------
  // str.split(sep)

  /** Python `s.split(sep)`: every occurrence of `sep` ends a piece, so there is
      always one piece more than there are separators, and empty pieces stay. */
  function Split(s: string, sep: char): (parts: seq<string>)
    ensures |parts| >= 1
    decreases |s|
  {
    if |s| == 0 then [""]
    else
      var rest := Split(s[1..], sep);
      if s[0] == sep then [""] + rest
      else [[s[0]] + rest[0]] + rest[1..]
  }

  /** Python `sep.join(parts)`, the inverse of Split. */
  function Join(parts: seq<string>, sep: char): string
    requires |parts| >= 1
    decreases |parts|
  {
    if |parts| == 1 then parts[0] else parts[0] + [sep] + Join(parts[1..], sep)
  }

  /** Number of occurrences of `c` in `s`. */
  function Count(s: string, c: char): nat
    decreases |s|
  {
    if |s| == 0 then 0 else (if s[0] == c then 1 else 0) + Count(s[1..], c)
  }

  /** Splitting loses nothing: joining the pieces gives back the text. */
  lemma {:induction false} JoinSplit(s: string, sep: char)
    ensures Join(Split(s, sep), sep) == s
    decreases |s|
  {
    if |s| > 0 {
      var rest := Split(s[1..], sep);
      JoinSplit(s[1..], sep);
      if s[0] == sep {
        assert ([""] + rest)[1..] == rest;
      } else {
        var parts := [[s[0]] + rest[0]] + rest[1..];
        if |rest| > 1 {
          assert parts[1..] == rest[1..];
          assert Join(rest, sep) == rest[0] + [sep] + Join(rest[1..], sep);
        }
        assert s == [s[0]] + s[1..];
      }
    }
  }

  /** No piece contains the separator. */
  lemma {:induction false} SplitPiecesAreSeparatorFree(s: string, sep: char)
    ensures forall i :: 0 <= i < |Split(s, sep)| ==> sep !in Split(s, sep)[i]
    decreases |s|
  {
    if |s| > 0 {
      SplitPiecesAreSeparatorFree(s[1..], sep);
      var rest := Split(s[1..], sep);
      if s[0] != sep {
        assert sep !in rest[0];
        var parts := Split(s, sep);
        forall i | 0 <= i < |parts| ensures sep !in parts[i] {
          if i > 0 { assert parts[i] == rest[i]; }
        }
      }
    }
  }

  /** There is exactly one piece more than there are separators. */
  lemma {:induction false} SplitCount(s: string, sep: char)
    ensures |Split(s, sep)| == Count(s, sep) + 1
    decreases |s|
  {
    if |s| > 0 {
      SplitCount(s[1..], sep);
    }
  }

  /** A text without the separator is a single piece. */
  lemma {:induction false} SplitSeparatorFree(x: string, sep: char)
    requires sep !in x
    ensures Split(x, sep) == [x]
    decreases |x|
  {
    if |x| > 0 {
      assert sep !in x[1..];
      SplitSeparatorFree(x[1..], sep);
      assert [x[0]] + x[1..] == x;
    }
  }

  /** A separator-free prefix followed by the separator is the first piece. */
  lemma {:induction false} SplitAfterPiece(x: string, y: string, sep: char)
    requires sep !in x
    ensures Split(x + [sep] + y, sep) == [x] + Split(y, sep)
    decreases |x|
  {
    var s := x + [sep] + y;
    if |x| == 0 {
      assert s[1..] == y;
    } else {
      assert s[1..] == x[1..] + [sep] + y;
      assert sep !in x[1..];
      SplitAfterPiece(x[1..], y, sep);
      assert [x[0]] + x[1..] == x;
    }
  }

  // ---------------------------------------------------------------------------
  // int(text)

  predicate IsDigit(c: char) { '0' <= c <= '9' }

  /** The ASCII characters `int()` strips around its literal: space, tab, line
      feed, vertical tab, form feed and carriage return. The information
      separators 0x1C..0x1F, which `str.isspace()` accepts, are not stripped. */
  predicate IsPyWhitespace(c: char) {
    c == ' ' || (9 <= c as int <= 13)
  }

  function StripLeft(s: string): string
    decreases |s|
  {
    if |s| > 0 && IsPyWhitespace(s[0]) then StripLeft(s[1..]) else s
  }

  function StripRight(s: string): string
    decreases |s|
  {
    if |s| > 0 && IsPyWhitespace(s[|s| - 1]) then StripRight(s[..|s| - 1]) else s
  }

  predicate AllDigits(s: string) {
    forall i :: 0 <= i < |s| ==> IsDigit(s[i])
  }

  /** The digit part `int()` accepts: digits, where single underscores may
      separate two digits ("1_000"), with no leading, trailing or double
      underscore. Leading zeros are allowed in base 10 ("007"). */
  predicate IsDigitGroup(s: string) {
    && |s| > 0
    && IsDigit(s[0])
    && IsDigit(s[|s| - 1])
    && (forall i :: 0 <= i < |s| ==> IsDigit(s[i]) || s[i] == '_')
    && (forall i :: 0 <= i < |s| - 1 ==> s[i] == '_' ==> s[i + 1] != '_')
  }

  /** The digits of a digit group in order, its underscores removed. */
  function DropUnderscores(s: string): (d: string)
    requires forall i :: 0 <= i < |s| ==> IsDigit(s[i]) || s[i] == '_'
    ensures AllDigits(d)
    decreases |s|
  {
    if |s| == 0 then ""
    else (if s[0] == '_' then "" else [s[0]]) + DropUnderscores(s[1..])
  }

  function DigitValue(c: char): nat
    requires IsDigit(c)
  {
    c as int - '0' as int
  }

  /** The value of a string of decimal digits, most significant first. */
  function DecimalValue(ds: string): nat
    requires AllDigits(ds)
    decreases |ds|
  {
    if |ds| == 0 then 0 else DecimalValue(ds[..|ds| - 1]) * 10 + DigitValue(ds[|ds| - 1])
  }

  /** Python `int(text)`: surrounding whitespace is ignored, then the literal
      is read. `None` is the ValueError `int()` raises. */
  function PyInt(text: string): Option<int> {
    IntLiteral(StripRight(StripLeft(text)))
  }

  /** A base-10 integer literal without surrounding whitespace: one optional
      sign, then a digit group. */
  function IntLiteral(t: string): Option<int> {
    if |t| > 0 && (t[0] == '+' || t[0] == '-') then
      match GroupValue(t[1..])
      case None => None
      case Some(m) => var v: int := m; Some(if t[0] == '-' then -v else v)
    else GroupValue(t)
  }

  /** The value of a digit group, or `None` when the text is not one. */
  function GroupValue(g: string): Option<nat> {
    if IsDigitGroup(g) then Some(DecimalValue(DropUnderscores(g))) else None
  }

  // ---------------------------------------------------------------------------
  // Number.prototype.toString() on integral values

  function DigitChar(d: nat): (c: char)
    requires d < 10
    ensures IsDigit(c) && DigitValue(c) == d
  {
    ('0' as int + d) as char
  }

  /** Decimal digits of `n`, most significant first, without leading zeros. */
  function NatDecimal(n: nat): (s: string)
    ensures |s| > 0 && AllDigits(s)
    ensures n > 0 ==> s[0] != '0'
    decreases n
  {
    if n < 10 then [DigitChar(n)] else NatDecimal(n / 10) + [DigitChar(n % 10)]
  }

  /** `n.toString()`: a minus sign for negative values, then the digits. */
  function DecimalString(n: int): (s: string)
    ensures Space !in s
  {
    if n < 0 then "-" + NatDecimal(-n) else NatDecimal(n)
  }

  /** The text the scripts build: `a.toString() + " " + b.toString()`. */
  function FormatPair(a: int, b: int): string {
    DecimalString(a) + [Space] + DecimalString(b)
  }

  /** Reading the digits back gives the number. */
  lemma {:induction false} NatDecimalValue(n: nat)
    ensures DecimalValue(NatDecimal(n)) == n
    decreases n
  {
    if n >= 10 {
      var s := NatDecimal(n);
      assert s[..|s| - 1] == NatDecimal(n / 10);
      NatDecimalValue(n / 10);
    }
  }

  lemma {:induction false} DropUnderscoresOfDigits(s: string)
    requires AllDigits(s)
    ensures DropUnderscores(s) == s
    decreases |s|
  {
    if |s| > 0 {
      DropUnderscoresOfDigits(s[1..]);
      assert [s[0]] + s[1..] == s;
    }
  }

  /** Exactly the underscores are removed: every other character survives. */
  lemma {:induction false} DropUnderscoresLength(s: string)
    requires forall i :: 0 <= i < |s| ==> IsDigit(s[i]) || s[i] == '_'
    ensures |DropUnderscores(s)| == |s| - Count(s, '_')
    decreases |s|
  {
    if |s| > 0 {
      DropUnderscoresLength(s[1..]);
    }
  }

  /** Removing underscores works piece by piece: an underscore between two
      parts of a group is dropped and both parts keep their digits. */
  lemma {:induction false} DropUnderscoresSplit(x: string, y: string)
    requires forall i :: 0 <= i < |x| ==> IsDigit(x[i]) || x[i] == '_'
    requires forall i :: 0 <= i < |y| ==> IsDigit(y[i]) || y[i] == '_'
    ensures DropUnderscores(x + ['_'] + y) == DropUnderscores(x) + DropUnderscores(y)
    decreases |x|
  {
    var s := x + ['_'] + y;
    if |x| == 0 {
      assert s[1..] == y;
    } else {
      assert s[1..] == x[1..] + ['_'] + y;
      DropUnderscoresSplit(x[1..], y);
    }
  }

  /** Stripping leaves a text alone that neither starts nor ends with whitespace. */
  lemma StripUntouched(s: string)
    requires |s| > 0 && !IsPyWhitespace(s[0]) && !IsPyWhitespace(s[|s| - 1])
    ensures StripRight(StripLeft(s)) == s
  {
  }

  /** A digit group without a sign reads as its value. */
  lemma UnsignedGroup(g: string)
    requires GroupValue(g).Some?
    ensures IntLiteral(g) == GroupValue(g)
  {
    assert IsDigit(g[0]);
  }

  /** A minus sign before a digit group negates its value. */
  lemma NegatedGroup(g: string)
    requires GroupValue(g).Some?
    ensures IntLiteral("-" + g) == Some(-(GroupValue(g).value as int))
  {
    var neg := "-" + g;
    assert neg[0] == '-' && neg[1..] == g;
  }

  lemma GroupValueOfDigits(ds: string)
    requires |ds| > 0 && AllDigits(ds)
    ensures GroupValue(ds) == Some(DecimalValue(ds))
  {
    DropUnderscoresOfDigits(ds);
    DigitsAreGroup(ds);
  }

  lemma DigitsAreGroup(ds: string)
    requires |ds| > 0 && AllDigits(ds)
    ensures IsDigitGroup(ds)
  {
    assert IsDigit(ds[0]) && IsDigit(ds[|ds| - 1]);
  }

  /** `int(n.toString()) == n`, negative values included. */
  lemma PyIntOfDecimalString(n: int)
    ensures PyInt(DecimalString(n)) == Some(n)
  {
    var m: nat := if n < 0 then -n else n;
    var ds := NatDecimal(m);
    NatDecimalValue(m);
    GroupValueOfDigits(ds);
    StripUntouched(DecimalString(n));
    if n < 0 {
      NegatedGroup(ds);
    } else {
      UnsignedGroup(ds);
    }
  }

  // ---------------------------------------------------------------------------
  // w, h = r.split(' '); int(w), int(h)

  /** The pair a script result denotes, or the ValueError Python raises:
      UnpackError when the text does not split into exactly two pieces,
      InvalidLiteral when a piece is not an integer. */
  function ParsePair(s: string): Result<(int, int)> {
    var parts := Split(s, Space);
    if |parts| != 2 then Err(UnpackError)
    else
      match (PyInt(parts[0]), PyInt(parts[1]))
      case (Some(a), Some(b)) => Ok((a, b))
      case _ => Err(InvalidLiteral)
  }

  /** Unpacking fails exactly when the text does not hold exactly one space. */
  lemma ParsePairUnpack(s: string)
    ensures ParsePair(s) == Err(UnpackError) <==> Count(s, Space) != 1
  {
    SplitCount(s, Space);
  }

  /** Every successful parse reads a text "x y" with two space-free integer literals. */
  lemma ParsePairSound(s: string, a: int, b: int)
    requires ParsePair(s) == Ok((a, b))
    ensures exists x: string, y: string ::
      && Space !in x && Space !in y && s == x + [Space] + y
      && PyInt(x) == Some(a) && PyInt(y) == Some(b)
  {
    var parts := Split(s, Space);
    JoinSplit(s, Space);
    SplitPiecesAreSeparatorFree(s, Space);
    assert parts[1..] == [parts[1]];
    assert s == parts[0] + [Space] + parts[1];
  }

  /** Conversely, every such text parses to its two values. */
  lemma ParsePairComplete(x: string, y: string)
    requires Space !in x && Space !in y
    requires PyInt(x).Some? && PyInt(y).Some?
    ensures ParsePair(x + [Space] + y) == Ok((PyInt(x).value, PyInt(y).value))
  {
    SplitAfterPiece(x, y, Space);
    SplitSeparatorFree(y, Space);
  }

  /** Formatting two integers as the scripts do and parsing gives them back. */
  lemma ParseFormatRoundTrip(a: int, b: int)
    ensures ParsePair(FormatPair(a, b)) == Ok((a, b))
  {
    PyIntOfDecimalString(a);
    PyIntOfDecimalString(b);
    ParsePairComplete(DecimalString(a), DecimalString(b));
  }

  /** A fractional offset such as "12.5" (scrollLeft may be fractional on
      scaled displays) is not an integer literal, so the parse fails. */
  lemma FractionalOffsetRejected()
    ensures ParsePair("12.5 0") == Err(InvalidLiteral)
  {
    var x, y := "12.5", "0";
    assert "12.5 0" == x + [Space] + y;
    SplitAfterPiece(x, y, Space);
    SplitSeparatorFree(y, Space);
    StripUntouched(x);
    assert x[2] == '.';
    assert !IsDigitGroup(x);
    assert PyInt(x) == None;
  }

  /** The value of "1000"; DecimalValue reads the last digit first. */
  lemma DecimalThousand()
    ensures DecimalValue("1000") == 1000
  {
    assert "1000"[..3] == "100" && "100"[..2] == "10" && "10"[..1] == "1";
  }

  /** What `int()` accepts: underscores between digits, leading zeros, a sign
      and surrounding ASCII whitespace. */
  lemma PyIntAccepts()
    ensures PyInt("1_000") == Some(1000)
    ensures PyInt("007") == Some(7)
    ensures PyInt(" -5\t") == Some(-5)
  {
    var g := "1_000";
    StripUntouched(g);
    assert g == "1" + ['_'] + "000";
    DropUnderscoresSplit("1", "000");
    DropUnderscoresOfDigits("1");
    DropUnderscoresOfDigits("000");
    assert DropUnderscores(g) == "1" + "000" == "1000";
    DecimalThousand();
    assert IsDigitGroup(g);
    assert GroupValue(g) == Some(1000);
    UnsignedGroup(g);

    StripUntouched("007");
    assert "007"[..2] == "00" && "00"[..1] == "0";
    GroupValueOfDigits("007");
    UnsignedGroup("007");

    var t := " -5\t";
    assert StripLeft(t) == "-5\t";
    assert StripRight("-5\t") == "-5";
    GroupValueOfDigits("5");
    NegatedGroup("5");
  }

  /** What `int()` rejects: an information separator, which it does not strip,
      a doubled underscore and a leading underscore. */
  lemma PyIntRejects()
    ensures PyInt("\U{1c}5") == None
    ensures PyInt("1__0") == None
    ensures PyInt("_1") == None
  {
    var u := "\U{1c}5";
    StripUntouched(u);
    assert !IsDigitGroup(u);
    var v := "1__0";
    StripUntouched(v);
    assert v[1] == '_' && v[2] == '_';
    assert !IsDigitGroup(v);
    StripUntouched("_1");
  }

  /** How the pair parse treats texts a script could return: a tab next to a
      number is stripped by `int()`, a second space gives three pieces, and an
      information separator makes `int()` fail. */
  lemma ParsePairExamples()
    ensures ParsePair("5\t 6") == Ok((5, 6))
    ensures ParsePair("5  6") == Err(UnpackError)
    ensures ParsePair("\U{1c}5 0") == Err(InvalidLiteral)
  {
    ParsePairTab();
    ParsePairUnpack("5  6");
    assert Count("5  6", Space) == 2;
    ParsePairSeparator();
  }

  lemma ParsePairTab()
    ensures ParsePair("5\t 6") == Ok((5, 6))
  {
    var x, y := "5\t", "6";
    assert "5\t 6" == x + [Space] + y;
    assert StripRight(StripLeft(x)) == "5";
    GroupValueOfDigits("5");
    UnsignedGroup("5");
    StripUntouched(y);
    ParsePairComplete(x, y);
  }

  lemma ParsePairSeparator()
    ensures ParsePair("\U{1c}5 0") == Err(InvalidLiteral)
  {
    var u := "\U{1c}5";
    PyIntRejects();
    assert "\U{1c}5 0" == u + [Space] + "0";
    SplitAfterPiece(u, "0", Space);
    SplitSeparatorFree("0", Space);
  }
}
