/**
 * Decimal text of integers: Python's `str(n)` for an `int`, the `:.2f` rendering of a
 * percentage that is held as a whole number of hundredths, and the `float(...)` reading
 * of such a rendering back.
 */
module Numeral {
  import opened Wrappers

  predicate IsDigit(c: char) {
    '0' <= c <= '9'
  }

  predicate AllDigits(s: string) {
    forall i :: 0 <= i < |s| ==> IsDigit(s[i])
  }

  function Digit(d: nat): (c: char)
    requires d < 10
    ensures IsDigit(c) && c as int - '0' as int == d
  {
    ('0' as int + d) as char
  }

  function DigitValue(c: char): (d: nat)
    requires IsDigit(c)
    ensures d < 10 && Digit(d) == c
  {
    c as int - '0' as int
  }

  /** `str(n)` for a natural number: its decimal digits, most significant first. */
  function NatStr(n: nat): (s: string)
    ensures 1 <= |s| && AllDigits(s)
    decreases n
  {
    if n < 10 then [Digit(n)] else NatStr(n / 10) + [Digit(n % 10)]
  }

  /** The value of a string of decimal digits (`int(s)`; the empty string reads as 0). */
  function ParseDigits(s: string): (n: nat)
    requires AllDigits(s)
    decreases |s|
  {
    if s == [] then 0 else ParseDigits(s[..|s| - 1]) * 10 + DigitValue(s[|s| - 1])
  }

  /** Reading the digits `str(n)` wrote gives back `n`. */
  lemma {:induction false} ParseNatStr(n: nat)
    ensures ParseDigits(NatStr(n)) == n
    decreases n
  {
    if n >= 10 {
      var s := NatStr(n);
      assert s[..|s| - 1] == NatStr(n / 10);
      ParseNatStr(n / 10);
    }
  }

  /** `str(i)` for any integer. */
  function IntStr(i: int): (s: string)
    ensures 1 <= |s|
    ensures i < 0 <==> s[0] == '-'
  {
    if i < 0 then "-" + NatStr(-i) else NatStr(i)
  }

  /** The two-decimal rendering (`:.2f`) of the value `c / 100`. */
  function FormatCenti(c: int): (s: string)
    ensures 4 <= |s|
  {
    var a := if c < 0 then -c else c;
    (if c < 0 then "-" else "") + NatStr(a / 100) + "." + [Digit(a % 100 / 10), Digit(a % 10)]
  }

  /** The rendering holds only digits, one point and possibly a leading minus sign. */
  lemma FormatCentiChars(c: int, i: int)
    requires 0 <= i < |FormatCenti(c)|
    ensures var ch := FormatCenti(c)[i]; IsDigit(ch) || ch == '.' || ch == '-'
  {
  }

  /**
   * `float(s)` for the shape `FormatCenti` writes (`-`? digits `.` two digits), in hundredths;
   * `None` (Python's ValueError) for anything else.
   */
  function ParseCenti(s: string): (r: Option<int>)
  {
    if |s| > 0 && s[0] == '-' then
      match ParseUnsignedCenti(s[1..])
      case Some(a) => var n: int := a; Some(-n)
      case None => None
    else
      ParseUnsignedCenti(s)
  }

  function ParseUnsignedCenti(s: string): (r: Option<nat>)
    ensures r.Some? ==> 4 <= |s| && s[|s| - 3] == '.'
  {
    if 4 <= |s| && s[|s| - 3] == '.' && AllDigits(s[..|s| - 3]) && AllDigits(s[|s| - 2..]) then
      Some(ParseDigits(s[..|s| - 3]) * 100 + ParseDigits(s[|s| - 2..]))
    else
      None
  }

  lemma {:induction false} ParseUnsignedFormat(a: nat)
    ensures ParseUnsignedCenti(NatStr(a / 100) + "." + [Digit(a % 100 / 10), Digit(a % 10)]) == Some(a)
  {
    var w := NatStr(a / 100);
    var f := [Digit(a % 100 / 10), Digit(a % 10)];
    var s := w + "." + f;
    assert s[..|s| - 3] == w;
    assert s[|s| - 2..] == f;
    ParseNatStr(a / 100);
    assert ParseDigits(f) == (a % 100 / 10) * 10 + a % 10 by {
      assert f[..1] == [Digit(a % 100 / 10)];
      assert f[..1][..0] == [];
      assert ParseDigits(f[..1]) == a % 100 / 10;
    }
  }

  /** Reading back a two-decimal rendering gives the value it was written from. */
  lemma {:induction false} ParseFormatCenti(c: int)
    ensures ParseCenti(FormatCenti(c)) == Some(c)
  {
    var a := if c < 0 then -c else c;
    var u := NatStr(a / 100) + "." + [Digit(a % 100 / 10), Digit(a % 10)];
    ParseUnsignedFormat(a);
    if c < 0 {
      assert FormatCenti(c) == "-" + u;
      assert FormatCenti(c)[1..] == u;
    } else {
      assert FormatCenti(c) == u;
      assert IsDigit(u[0]);
    }
  }
}
