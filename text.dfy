/** Decimal rendering of numbers and joining of lists, as JavaScript template strings do them. */
module Text {

  predicate IsDigit(c: char) {
    '0' <= c <= '9'
  }

  predicate AllDigits(s: string) {
    forall i :: 0 <= i < |s| ==> IsDigit(s[i])
  }

  function DigitChar(d: nat): (c: char)
    requires d < 10
    ensures IsDigit(c)
  {
    ('0' as int + d) as char
  }

  function DigitValue(c: char): (d: nat)
    requires IsDigit(c)
    ensures d < 10
  {
    c as int - '0' as int
  }

  /** `${n}` for a non-negative integer: its decimal digits, most significant first. */
  function NatToString(n: nat): (r: string)
    ensures |r| >= 1 && AllDigits(r)
    ensures n < 10 <==> |r| == 1
    decreases n
  {
    if n < 10 then [DigitChar(n)] else NatToString(n / 10) + [DigitChar(n % 10)]
  }

  /** The value of a string of decimal digits (the inverse of NatToString). */
  function ParseDecimal(s: string): nat
    requires AllDigits(s)
    decreases |s|
  {
    if s == [] then 0 else ParseDecimal(s[..|s| - 1]) * 10 + DigitValue(s[|s| - 1])
  }

  /** Rendering a number and reading it back gives the number. */
  lemma {:induction false} ParseNatToString(n: nat)
    ensures ParseDecimal(NatToString(n)) == n
    decreases n
  {
    var r := NatToString(n);
    if n >= 10 {
      ParseNatToString(n / 10);
      assert r[..|r| - 1] == NatToString(n / 10);
    }
  }

  /** Two numbers render alike only when they are equal. */
  lemma NatToStringInjective(a: nat, b: nat)
    requires NatToString(a) == NatToString(b)
    ensures a == b
  {
    ParseNatToString(a);
    ParseNatToString(b);
  }

  /** `String(xs)` for an array of strings: the elements joined with ",". */
  function JoinWithCommas(xs: seq<string>): (r: string)
    ensures xs == [] ==> r == ""
    ensures |xs| == 1 ==> r == xs[0]
    ensures |r| == (if xs == [] then 0 else |xs| - 1) + SumOfLengths(xs)
  {
    if xs == [] then ""
    else if |xs| == 1 then xs[0]
    else xs[0] + "," + JoinWithCommas(xs[1..])
  }

  function SumOfLengths(xs: seq<string>): nat {
    if xs == [] then 0 else |xs[0]| + SumOfLengths(xs[1..])
  }

  predicate CommaFree(s: string) {
    forall i :: 0 <= i < |s| ==> s[i] != ','
  }

  /** `s.split(",")`: the pieces between commas, in order; a string without commas is one piece. */
  function SplitOnCommas(s: string): (r: seq<string>)
    ensures |r| >= 1
    ensures forall k :: 0 <= k < |r| ==> CommaFree(r[k])
    decreases |s|
  {
    if s == [] then [""]
    else if s[0] == ',' then [""] + SplitOnCommas(s[1..])
    else
      var rest := SplitOnCommas(s[1..]);
      [[s[0]] + rest[0]] + rest[1..]
  }

  /** Splitting a comma-free first piece off at the comma that follows it. */
  lemma {:induction false} SplitAfterPiece(piece: string, tail: string)
    requires CommaFree(piece)
    ensures SplitOnCommas(piece + "," + tail) == [piece] + SplitOnCommas(tail)
    decreases |piece|
  {
    var s := piece + "," + tail;
    if piece == [] {
      assert s == [','] + tail && s[1..] == tail;
    } else {
      assert s[0] == piece[0] && s[1..] == piece[1..] + "," + tail;
      SplitAfterPiece(piece[1..], tail);
      assert [piece[0]] + piece[1..] == piece;
    }
  }

  /** A string without commas splits into itself. */
  lemma {:induction false} SplitCommaFree(s: string)
    requires CommaFree(s)
    ensures SplitOnCommas(s) == [s]
    decreases |s|
  {
    if s != [] {
      SplitCommaFree(s[1..]);
      assert [s[0]] + s[1..] == s;
    }
  }

  /**
   * Joining a non-empty list of comma-free strings and splitting the text at its commas gives
   * the list back: the text is the elements, in order, separated by single commas.
   */
  lemma {:induction false} JoinThenSplit(xs: seq<string>)
    requires xs != [] && forall k :: 0 <= k < |xs| ==> CommaFree(xs[k])
    ensures SplitOnCommas(JoinWithCommas(xs)) == xs
    decreases |xs|
  {
    if |xs| == 1 {
      SplitCommaFree(xs[0]);
    } else {
      JoinThenSplit(xs[1..]);
      SplitAfterPiece(xs[0], JoinWithCommas(xs[1..]));
    }
  }

  /**
   * The characters `String.prototype.trim` removes: the white space and line terminators of
   * ECMAScript (tab, vertical tab, form feed, space, no-break space, the byte order mark, the
   * other space separators, line feed, carriage return, and the line and paragraph separators).
   */
  predicate IsJsWhitespace(c: char) {
    || c == '\t' || c == '\n' || c == '\U{000B}' || c == '\U{000C}' || c == '\r' || c == ' '
    || c == '\U{00A0}' || c == '\U{FEFF}' || c == '\U{1680}' || ('\U{2000}' <= c <= '\U{200A}')
    || c == '\U{2028}' || c == '\U{2029}' || c == '\U{202F}' || c == '\U{205F}' || c == '\U{3000}'
  }

  predicate AllWhitespace(s: string) {
    forall i :: 0 <= i < |s| ==> IsJsWhitespace(s[i])
  }

  /** Drops the leading white space: what is dropped is all white space, and what is left does not start with any. */
  function TrimStart(s: string): (r: string)
    ensures |r| <= |s| && r == s[|s| - |r|..]
    ensures AllWhitespace(s[..|s| - |r|])
    ensures r == [] || !IsJsWhitespace(r[0])
  {
    if s != [] && IsJsWhitespace(s[0]) then TrimStart(s[1..]) else s
  }

  /** Drops the trailing white space: what is dropped is all white space, and what is left does not end with any. */
  function TrimEnd(s: string): (r: string)
    ensures |r| <= |s| && r == s[..|r|]
    ensures AllWhitespace(s[|r|..])
    ensures r == [] || !IsJsWhitespace(r[|r| - 1])
  {
    if s != [] && IsJsWhitespace(s[|s| - 1]) then TrimEnd(s[..|s| - 1]) else s
  }

  /** `s.trim()`. */
  function Trim(s: string): string {
    TrimEnd(TrimStart(s))
  }

  /** A string trims to nothing exactly when every character of it is white space. */
  lemma TrimIsEmptyIffBlank(s: string)
    ensures Trim(s) == "" <==> AllWhitespace(s)
  {
    var t := TrimStart(s);
    if t != "" {
      assert !AllWhitespace(t) by { assert !IsJsWhitespace(t[0]); }
      assert t[0] == s[|s| - |t|];
    }
  }
}
