/**
 * Decimal rendering of integers as java.util.Formatter does it for "%0<width>d",
 * and the reading of a run of ASCII digits back into a number.
 */
module Decimal {
  import opened JavaText

  function DigitChar(d: nat): (c: char)
    requires d < 10
    ensures IsDigit(c) && DigitValue(c) == d
  {
    ('0' as int + d) as char
  }

  function DigitValue(c: char): nat
    requires IsDigit(c)
  {
    c as int - '0' as int
  }

  /** The number a string of decimal digits denotes, most significant digit first. */
  function ValueOf(s: string): nat
    requires AllDigits(s)
  {
    if s == [] then 0 else ValueOf(s[..|s| - 1]) * 10 + DigitValue(s[|s| - 1])
  }

  /** Integer.toString of a non-negative number: its shortest decimal form. */
  function Digits(n: nat): (r: string)
    ensures 1 <= |r| && AllDigits(r)
    ensures ValueOf(r) == n
    ensures |r| > 1 ==> r[0] != '0'
  {
    if n < 10 then
      [DigitChar(n)]
    else
      var r := Digits(n / 10) + [DigitChar(n % 10)];
      assert r[..|r| - 1] == Digits(n / 10);
      r
  }

  function Pow10(k: nat): nat {
    if k == 0 then 1 else 10 * Pow10(k - 1)
  }

  /** A number below 10^k needs at most k digits, and one at or above 10^(k-1) needs at least k. */
  lemma {:induction false} DigitsLength(n: nat, k: nat)
    requires 1 <= k
    ensures n < Pow10(k) ==> |Digits(n)| <= k
    ensures Pow10(k - 1) <= n ==> k <= |Digits(n)|
  {
    if n >= 10 {
      if k > 1 {
        DigitsLength(n / 10, k - 1);
      } else {
        assert Pow10(1) == 10;
      }
    } else if k > 1 {
      assert Pow10(k - 1) >= 10 by { Pow10AtLeastTen(k - 1); }
    }
  }

  lemma {:induction false} Pow10AtLeastTen(k: nat)
    requires 1 <= k
    ensures Pow10(k) >= 10
  {
    if k > 1 {
      Pow10AtLeastTen(k - 1);
    }
  }

  function Zeros(k: nat): (r: string)
    ensures |r| == k && AllDigits(r)
    ensures forall i :: 0 <= i < k ==> r[i] == '0'
  {
    seq(k, i => '0')
  }

  /** The '0' flag: s widened to at least width characters by zeros on the left. */
  function ZeroPad(s: string, width: nat): (r: string)
    ensures |r| == if |s| < width then width else |s|
    ensures r[|r| - |s|..] == s
  {
    if |s| < width then Zeros(width - |s|) + s else s
  }

  /** Leading zeros do not change the number a digit string denotes. */
  lemma {:induction false} ValueOfZeroPrefixed(k: nat, s: string)
    requires AllDigits(s)
    ensures AllDigits(Zeros(k) + s)
    ensures ValueOf(Zeros(k) + s) == ValueOf(s)
    decreases |s|
  {
    var z := Zeros(k);
    if s == [] {
      assert z + s == z;
      ValueOfZeros(k);
    } else {
      var s' := s[..|s| - 1];
      assert (z + s)[..|z + s| - 1] == z + s';
      ValueOfZeroPrefixed(k, s');
    }
  }

  lemma {:induction false} ValueOfZeros(k: nat)
    ensures ValueOf(Zeros(k)) == 0
  {
    if k > 0 {
      assert Zeros(k)[..k - 1] == Zeros(k - 1);
      ValueOfZeros(k - 1);
    }
  }

  /** String.format("%0<width>d", n): an optional minus sign, then the magnitude padded with zeros to the width. */
  function Format(n: int, width: nat): (r: string)
    ensures 0 <= n ==> AllDigits(r) && ValueOf(r) == n
    ensures n < 0 ==> r != [] && r[0] == '-' && AllDigits(r[1..]) && ValueOf(r[1..]) == -n
    ensures 0 <= n ==> |r| == if |Digits(n)| < width then width else |Digits(n)|
    ensures n < 0 ==> |r| == if |Digits(-n)| + 1 < width then width else |Digits(-n)| + 1
  {
    if 0 <= n then
      var d := Digits(n);
      var r := ZeroPad(d, width);
      ValueOfZeroPadded(d, width);
      r
    else
      var d := Digits(-n);
      var r := ZeroPad(d, if width == 0 then 0 else width - 1);
      ValueOfZeroPadded(d, if width == 0 then 0 else width - 1);
      assert ("-" + r)[1..] == r;
      "-" + r
  }

  lemma ValueOfZeroPadded(s: string, width: nat)
    requires AllDigits(s)
    ensures AllDigits(ZeroPad(s, width))
    ensures ValueOf(ZeroPad(s, width)) == ValueOf(s)
  {
    if |s| < width {
      ValueOfZeroPrefixed(width - |s|, s);
    }
  }

  /** A non-negative number below 10^width is rendered by "%0<width>d" in exactly width characters. */
  lemma FormatLength(n: int, width: nat)
    requires 1 <= width && 0 <= n < Pow10(width)
    ensures |Format(n, width)| == width
  {
    DigitsLength(n, width);
  }
}
