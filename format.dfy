/** Text formatting of integers as the chart's x-axis tick labels need it:
    Python's str(int), the "{:02d}" format and the label "{}-{:02d}". */
module Format {
  import opened Sales

  predicate IsDigit(c: char)
  {
    '0' <= c <= '9'
  }

  predicate AllDigits(s: string)
  {
    forall i :: 0 <= i < |s| ==> IsDigit(s[i])
  }

  function DigitChar(d: nat): (c: char)
    requires d < 10
    ensures IsDigit(c)
  {
    ('0' as int + d) as char
  }

  function DigitValue(c: char): (d: nat)
    requires IsDigit(c)
    ensures d < 10 && DigitChar(d) == c
  {
    c as int - '0' as int
  }

  /** Decimal digits of a natural number, most significant first, no leading zero. */
  function NatToString(n: nat): (s: string)
    ensures |s| > 0 && AllDigits(s)
    ensures n < 10 <==> |s| == 1
  {
    if n < 10 then [DigitChar(n)] else NatToString(n / 10) + [DigitChar(n % 10)]
  }

  /** Python's str(int): a minus sign before the digits of a negative number. */
  function IntToString(i: int): string
  {
    if i < 0 then "-" + NatToString(-i) else NatToString(i)
  }

  /** Python's "{:02d}": zero-padded to width two; a sign counts towards the width. */
  function ZeroPad2(i: int): string
  {
    if 0 <= i < 10 then "0" + NatToString(i) else IntToString(i)
  }

  /** The x-axis tick label "{}-{:02d}".format(year, month). */
  function TickLabel(year: int, month: int): string
  {
    IntToString(year) + "-" + ZeroPad2(month)
  }

  /** The value of a string of decimal digits. */
  function ParseNat(s: string): nat
    requires AllDigits(s)
  {
    if s == [] then 0 else ParseNat(s[..|s| - 1]) * 10 + DigitValue(s[|s| - 1])
  }

  /** Text that IntToString can produce: digits, optionally after a minus sign. */
  predicate IsIntText(s: string)
  {
    if |s| > 0 && s[0] == '-' then |s| > 1 && AllDigits(s[1..]) else |s| > 0 && AllDigits(s)
  }

  function ParseInt(s: string): int
    requires IsIntText(s)
  {
    if s[0] == '-' then 0 - ParseNat(s[1..]) else ParseNat(s)
  }

  /** Reads a tick label back: the year before the last "-", two month digits after it. */
  function ParseTickLabel(s: string): Option<(int, int)>
  {
    if |s| >= 4 && s[|s| - 3] == '-' && AllDigits(s[|s| - 2..]) && IsIntText(s[..|s| - 3]) then
      Some((ParseInt(s[..|s| - 3]), ParseNat(s[|s| - 2..])))
    else
      None
  }

  lemma {:induction false} ParseNatRoundTrip(n: nat)
    ensures ParseNat(NatToString(n)) == n
  {
    if n >= 10 {
      var s := NatToString(n);
      assert s[..|s| - 1] == NatToString(n / 10);
      ParseNatRoundTrip(n / 10);
    }
  }

  lemma IntToStringRoundTrip(i: int)
    ensures IsIntText(IntToString(i)) && ParseInt(IntToString(i)) == i
  {
    var s := IntToString(i);
    if i < 0 {
      var digits := NatToString(-i);
      assert s == "-" + digits;
      assert s[0] == '-' && s[1..] == digits;
      ParseNatRoundTrip(-i);
    } else {
      assert s == NatToString(i);
      assert IsDigit(s[0]);
      ParseNatRoundTrip(i);
    }
  }

  /** "{:02d}" gives at least two characters; a non-negative number gets leading
      zeros only up to width two and reads back to itself, a negative one is
      printed as str() prints it. */
  lemma ZeroPad2Width(i: int)
    ensures |ZeroPad2(i)| >= 2
    ensures i < 0 ==> ZeroPad2(i) == IntToString(i)
    ensures 0 <= i ==> AllDigits(ZeroPad2(i)) && ParseNat(ZeroPad2(i)) == i
    ensures 0 <= i < 100 <==> |ZeroPad2(i)| == 2 && AllDigits(ZeroPad2(i))
  {
    var s := ZeroPad2(i);
    if 0 <= i < 10 {
      assert s == ['0', DigitChar(i)];
      assert s[..1] == "0" && "0"[..0] == [];
      assert ParseNat("0") == 0;
    } else if 10 <= i {
      ParseNatRoundTrip(i);
      if i >= 100 {
        assert |NatToString(i / 10)| >= 2;
      } else {
        assert |NatToString(i / 10)| == 1;
      }
    } else {
      assert s[0] == '-';
    }
  }

  /** A tick label names its period: reading it back gives the year and month. */
  lemma TickLabelRoundTrip(year: int, month: int)
    requires 0 <= month < 100
    ensures ParseTickLabel(TickLabel(year, month)) == Some((year, month))
  {
    var y, s := IntToString(year), TickLabel(year, month);
    ZeroPad2Width(month);
    IntToStringRoundTrip(year);
    assert s[..|s| - 3] == y;
    assert s[|s| - 2..] == ZeroPad2(month);
  }

  /** Distinct periods get distinct tick labels. */
  lemma TickLabelInjective(y1: int, m1: int, y2: int, m2: int)
    requires 0 <= m1 < 100 && 0 <= m2 < 100
    ensures TickLabel(y1, m1) == TickLabel(y2, m2) <==> y1 == y2 && m1 == m2
  {
    TickLabelRoundTrip(y1, m1);
    TickLabelRoundTrip(y2, m2);
  }
}
