/**
 * The few Python built-ins the core uses on strings and numbers:
 * `str.split` on one character, `int()` of a string, `str()` of an int,
 * ASCII `str.lower()`, and `int(a / b)`, which truncates toward zero.
 */
module Text {
  import opened Wrappers

  predicate IsDigit(c: char) {
    '0' <= c <= '9'
  }

  predicate AllDigits(s: string) {
    forall p :: 0 <= p < |s| ==> IsDigit(s[p])
  }

  /**
   * The characters Python counts as whitespace: `str.isspace()`, which is
   * also what `\s` accepts in a `str` pattern and what `int()` strips.
   */
  predicate IsSpace(c: char) {
    c == ' ' || '\t' <= c <= '\r' || '\U{1C}' <= c <= '\U{1F}'
    || c == '\U{85}' || c == '\U{A0}' || c == '\U{1680}'
    || '\U{2000}' <= c <= '\U{200A}' || c == '\U{2028}' || c == '\U{2029}'
    || c == '\U{202F}' || c == '\U{205F}' || c == '\U{3000}'
  }

  predicate AllSpaces(s: string) {
    forall p :: 0 <= p < |s| ==> IsSpace(s[p])
  }

  /** `s.split(sep)`: the pieces between occurrences of `sep`, empty ones included. */
  function Split(s: string, sep: char): (parts: seq<string>)
    ensures |parts| >= 1
    decreases |s|
  {
    if |s| == 0 then [""]
    else
      var rest := Split(s[1..], sep);
      if s[0] == sep then [""] + rest
      else [[s[0]] + rest[0]] + rest[1..]
  }

  /** A string without the separator is not split at all. */
  lemma {:induction false} SplitWithoutSeparator(s: string, sep: char)
    requires sep !in s
    ensures Split(s, sep) == [s]
    decreases |s|
  {
    if |s| > 0 {
      assert sep !in s[1..];
      SplitWithoutSeparator(s[1..], sep);
      assert [s[0]] + s[1..] == s;
    }
  }

  /** A string with exactly one separator splits into the two sides. */
  lemma {:induction false} SplitAtSingleSeparator(a: string, b: string, sep: char)
    requires sep !in a && sep !in b
    ensures Split(a + [sep] + b, sep) == [a, b]
    decreases |a|
  {
    if |a| == 0 {
      assert a + [sep] + b == [sep] + b;
      assert ([sep] + b)[1..] == b;
      SplitWithoutSeparator(b, sep);
    } else {
      var s := a + [sep] + b;
      assert s[1..] == a[1..] + [sep] + b;
      assert sep !in a[1..];
      SplitAtSingleSeparator(a[1..], b, sep);
      assert [a[0]] + a[1..] == a;
    }
  }

  function DigitValue(c: char): nat {
    if IsDigit(c) then c as int - '0' as int else 0
  }

  /** `int(s)` for a string of ASCII digits. */
  function DecimalValue(s: string): nat
    decreases |s|
  {
    if |s| == 0 then 0 else 10 * DecimalValue(s[..|s| - 1]) + DigitValue(s[|s| - 1])
  }

  function DigitChar(d: nat): char
    requires d < 10
  {
    ('0' as int + d) as char
  }

  function NatText(n: nat): (s: string)
    ensures |s| > 0 && AllDigits(s)
    decreases n
  {
    if n < 10 then [DigitChar(n)] else NatText(n / 10) + [DigitChar(n % 10)]
  }

  /** `str(n)` for an int. */
  function IntText(n: int): string {
    if n < 0 then "-" + NatText(-n) else NatText(n)
  }

  /** Reading back what `str` writes gives the number again. */
  lemma {:induction false} NatTextRoundTrip(n: nat)
    ensures DecimalValue(NatText(n)) == n
    decreases n
  {
    if n >= 10 {
      NatTextRoundTrip(n / 10);
      var s := NatText(n);
      assert s[..|s| - 1] == NatText(n / 10);
    }
  }

  function LowerChar(c: char): char {
    if 'A' <= c <= 'Z' then (c as int + 32) as char else c
  }

  /**
   * `s.lower()`, restricted to ASCII. Compared with a word made of ASCII
   * letters other than k, such as "bullish" or "bearish", the result agrees
   * with Python's: no other character lower-cases to one of those letters
   * alone.
   */
  function AsciiLower(s: string): (r: string)
    ensures |r| == |s|
    ensures forall p :: 0 <= p < |r| ==> !('A' <= r[p] <= 'Z')
    ensures forall p :: 0 <= p < |s| && !('A' <= s[p] <= 'Z') ==> r[p] == s[p]
    ensures forall p :: 0 <= p < |s| && 'A' <= s[p] <= 'Z' ==> 'a' <= r[p] <= 'z' && r[p] as int - 'a' as int == s[p] as int - 'A' as int
  {
    seq(|s|, p requires 0 <= p < |s| => LowerChar(s[p]))
  }

  /** `s.strip()`: `s` without its leading and trailing whitespace. */
  function Strip(s: string): string {
    StripEnd(StripStart(s))
  }

  function StripStart(s: string): string
    decreases |s|
  {
    if |s| > 0 && IsSpace(s[0]) then StripStart(s[1..]) else s
  }

  function StripEnd(s: string): string
    decreases |s|
  {
    if |s| > 0 && IsSpace(s[|s| - 1]) then StripEnd(s[..|s| - 1]) else s
  }

  /** `lstrip` removes a prefix of whitespace and stops at the first other character. */
  lemma {:induction false} StripStartSpec(s: string)
    ensures var t := StripStart(s);
            && |t| <= |s| && t == s[|s| - |t|..]
            && (|t| == 0 || !IsSpace(t[0]))
            && AllSpaces(s[..|s| - |t|])
    decreases |s|
  {
    if |s| > 0 && IsSpace(s[0]) {
      StripStartSpec(s[1..]);
      var t := StripStart(s[1..]);
      assert s[1..][|s| - 1 - |t|..] == s[|s| - |t|..];
      assert s[1..][..|s| - 1 - |t|] == s[1..|s| - |t|];
      var removed := s[..|s| - |t|];
      forall p | 0 <= p < |removed|
        ensures IsSpace(removed[p])
      {
        if p > 0 {
          var inner := s[1..][..|s| - 1 - |t|];
          assert removed[p] == s[p] == inner[p - 1];
          assert IsSpace(inner[p - 1]);
        } else {
          assert removed[0] == s[0];
        }
      }
    }
  }

  /** `rstrip` removes a suffix of whitespace and stops at the last other character. */
  lemma {:induction false} StripEndSpec(s: string)
    ensures var t := StripEnd(s);
            && |t| <= |s| && t == s[..|t|]
            && (|t| == 0 || !IsSpace(t[|t| - 1]))
            && AllSpaces(s[|t|..])
    decreases |s|
  {
    if |s| > 0 && IsSpace(s[|s| - 1]) {
      StripEndSpec(s[..|s| - 1]);
      var t := StripEnd(s[..|s| - 1]);
      assert s[..|s| - 1][..|t|] == s[..|t|];
      assert s[..|s| - 1][|t|..] == s[|t|..|s| - 1];
      var removed := s[|t|..];
      forall p | 0 <= p < |removed|
        ensures IsSpace(removed[p])
      {
        if p < |s| - 1 - |t| {
          assert removed[p] == s[|t|..|s| - 1][p];
        }
      }
    }
  }

  /**
   * The digits of a base-10 `int()` literal: ASCII digits, with single
   * underscores allowed between them.
   */
  predicate GroupedDigits(s: string)
    decreases |s|
  {
    && |s| > 0 && IsDigit(s[0])
    && (|s| == 1 || if s[1] == '_' then GroupedDigits(s[2..]) else GroupedDigits(s[1..]))
  }

  /** `s` with its underscores removed. */
  function DropUnderscores(s: string): string
    decreases |s|
  {
    if |s| == 0 then ""
    else if s[0] == '_' then DropUnderscores(s[1..])
    else [s[0]] + DropUnderscores(s[1..])
  }

  /**
   * `int(s)` for a string: surrounding whitespace stripped, an optional
   * sign, then ASCII digits in groups joined by single underscores; `None`
   * where Python raises `ValueError` (other Unicode decimal digits aside).
   */
  function ParseInt(s: string): Option<int> {
    ParseLiteral(Strip(s))
  }

  /** `int()` of a string that has no surrounding whitespace. */
  function ParseLiteral(t: string): Option<int> {
    var negative := |t| > 0 && t[0] == '-';
    var body := if |t| > 0 && (t[0] == '+' || t[0] == '-') then t[1..] else t;
    if GroupedDigits(body) then
      var v: int := DecimalValue(DropUnderscores(body));
      Some(if negative then -v else v)
    else None
  }

  /** Removing underscores from a run of digits changes nothing. */
  lemma {:induction false} DropUnderscoresOfDigits(s: string)
    requires AllDigits(s)
    ensures DropUnderscores(s) == s
    decreases |s|
  {
    if |s| > 0 {
      DropUnderscoresOfDigits(s[1..]);
      assert [s[0]] + s[1..] == s;
    }
  }

  /** Leading whitespace is skipped up to the first other character. */
  lemma {:induction false} StripStartSkips(a: string, y: string)
    requires AllSpaces(a) && |y| > 0 && !IsSpace(y[0])
    ensures StripStart(a + y) == y
    decreases |a|
  {
    if |a| > 0 {
      assert (a + y)[1..] == a[1..] + y;
      StripStartSkips(a[1..], y);
    } else {
      assert a + y == y;
    }
  }

  /** Trailing whitespace is dropped back to the last other character. */
  lemma {:induction false} StripEndSkips(y: string, b: string)
    requires AllSpaces(b) && |y| > 0 && !IsSpace(y[|y| - 1])
    ensures StripEnd(y + b) == y
    decreases |b|
  {
    if |b| > 0 {
      assert (y + b)[..|y + b| - 1] == y + b[..|b| - 1];
      StripEndSkips(y, b[..|b| - 1]);
    } else {
      assert y + b == y;
    }
  }

  /** Stripping removes exactly the whitespace around a text that neither starts nor ends with any. */
  lemma StripAround(a: string, x: string, b: string)
    requires AllSpaces(a) && AllSpaces(b) && |x| > 0 && !IsSpace(x[0]) && !IsSpace(x[|x| - 1])
    ensures Strip(a + x + b) == x
  {
    assert a + x + b == a + (x + b);
    StripStartSkips(a, x + b);
    StripEndSkips(x, b);
  }

  /** `int(str(n)) == n`, whatever whitespace surrounds the text. */
  lemma ParseIntText(n: int, a: string, b: string)
    requires AllSpaces(a) && AllSpaces(b)
    ensures ParseInt(a + IntText(n) + b) == Some(n)
  {
    var x := IntText(n);
    var digits := if n < 0 then NatText(-n) else NatText(n);
    assert IsDigit(digits[0]) && IsDigit(digits[|digits| - 1]);
    assert x[0] == '-' || x[0] == digits[0];
    assert x[|x| - 1] == digits[|digits| - 1];
    StripAround(a, x, b);
    LiteralOfDigits(n);
  }

  /** The literal `str(n)` is read back as `n`. */
  lemma LiteralOfDigits(n: int)
    ensures ParseLiteral(IntText(n)) == Some(n)
  {
    var x := IntText(n);
    if n < 0 {
      var d := NatText(-n);
      DigitsAreGrouped(d);
      NatTextRoundTrip(-n);
      assert x[0] == '-' && x[1..] == d;
    } else {
      var d := NatText(n);
      DigitsAreGrouped(d);
      NatTextRoundTrip(n);
      assert x == d && IsDigit(x[0]);
    }
  }

  /** A run of digits is a literal without underscores. */
  lemma {:induction false} DigitsAreGrouped(d: string)
    requires |d| > 0 && AllDigits(d)
    ensures GroupedDigits(d) && DropUnderscores(d) == d
    decreases |d|
  {
    DropUnderscoresOfDigits(d);
    if |d| > 1 {
      assert d[1] != '_' by { assert IsDigit(d[1]); }
      DigitsAreGrouped(d[1..]);
    }
  }

  /** A text that neither starts nor ends with whitespace is its own strip. */
  lemma StripUnpadded(x: string)
    requires |x| > 0 && !IsSpace(x[0]) && !IsSpace(x[|x| - 1])
    ensures Strip(x) == x
  {
  }

  /** `int()` of a run of digits is its decimal value. */
  lemma ParseDigits(d: string)
    requires |d| > 0 && AllDigits(d)
    ensures ParseInt(d) == Some(DecimalValue(d))
  {
    assert IsDigit(d[0]) && IsDigit(d[|d| - 1]);
    StripUnpadded(d);
    DigitsAreGrouped(d);
  }

  /** An underscore between two groups of digits is ignored. */
  lemma ParseIntGrouped(u: string, v: string)
    requires |u| > 0 && |v| > 0 && AllDigits(u) && AllDigits(v)
    ensures ParseInt(u + "_" + v) == ParseInt(u + v) == Some(DecimalValue(u + v))
  {
    var s := u + "_" + v;
    assert IsDigit(s[0]) && IsDigit(s[|s| - 1]);
    StripUnpadded(s);
    GroupedJoin(u, v);
    DropJoin(u, v);
    assert AllDigits(u + v);
    ParseDigits(u + v);
  }

  /** Removing the underscore that joins two runs of digits leaves the runs. */
  lemma DropJoin(u: string, v: string)
    requires AllDigits(u) && AllDigits(v)
    ensures DropUnderscores(u + "_" + v) == u + v
  {
    assert u + "_" + v == u + ("_" + v);
    DropUnderscoresAppend(u, "_" + v);
    DropUnderscoresOfDigits(u);
    assert ("_" + v)[1..] == v;
    assert DropUnderscores("_" + v) == DropUnderscores(v);
    DropUnderscoresOfDigits(v);
  }

  /** Two runs of digits joined by one underscore form a literal. */
  lemma {:induction false} GroupedJoin(u: string, v: string)
    requires |u| > 0 && |v| > 0 && AllDigits(u) && AllDigits(v)
    ensures GroupedDigits(u + "_" + v)
    decreases |u|
  {
    var s := u + "_" + v;
    assert IsDigit(s[0]);
    if |u| == 1 {
      assert s[1] == '_' && s[2..] == v;
      DigitsAreGrouped(v);
    } else {
      assert s[1] == u[1] && IsDigit(u[1]);
      assert s[1..] == u[1..] + "_" + v;
      GroupedJoin(u[1..], v);
    }
  }

  lemma {:induction false} DropUnderscoresAppend(s: string, t: string)
    ensures DropUnderscores(s + t) == DropUnderscores(s) + DropUnderscores(t)
    decreases |s|
  {
    if |s| > 0 {
      assert (s + t)[1..] == s[1..] + t;
      DropUnderscoresAppend(s[1..], t);
    } else {
      assert s + t == t;
    }
  }

  /** Euclidean division of a non-negative number brackets it between two multiples. */
  lemma DivBounds(x: int, b: int)
    requires x >= 0 && b > 0
    ensures x / b >= 0 && (x / b) * b <= x < (x / b) * b + b
  {
    assert x == b * (x / b) + x % b;
  }

  /** `int(a / b)` for a positive `b`: the quotient rounded toward zero. */
  function TruncDiv(a: int, b: int): (q: int)
    requires b > 0
    ensures a >= 0 ==> q >= 0 && q * b <= a < q * b + b
    ensures a < 0 ==> q <= 0 && q * b - b < a <= q * b
  {
    if a >= 0 then
      DivBounds(a, b);
      a / b
    else
      DivBounds(-a, b);
      -((-a) / b)
  }

  function Min(a: int, b: int): int {
    if a <= b then a else b
  }

  function Max(a: int, b: int): int {
    if a >= b then a else b
  }
}
