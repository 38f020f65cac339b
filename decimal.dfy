/** Decimal text of non-negative integers, as Python's `str(n)` and the
    zero-padded format `'{num:0{width}}'` write it, and the parser that
    reads such text back. */
module Decimal {

  predicate IsDigit(c: char) {
    '0' <= c <= '9'
  }

  predicate AllDigits(s: string) {
    forall i :: 0 <= i < |s| ==> IsDigit(s[i])
  }

  function DigitValue(c: char): (d: nat)
    requires IsDigit(c)
    ensures d < 10
  {
    (c as int) - ('0' as int)
  }

  function DigitChar(d: nat): (c: char)
    requires d < 10
    ensures IsDigit(c) && DigitValue(c) == d
  {
    (('0' as int) + d) as char
  }

  /** `str(n)`: the shortest decimal text of n, without leading zeros. */
  function ToDecimal(n: nat): (s: string)
    ensures 1 <= |s| && AllDigits(s)
    ensures |s| > 1 ==> s[0] != '0'
    decreases n
  {
    if n < 10 then [DigitChar(n)] else ToDecimal(n / 10) + [DigitChar(n % 10)]
  }

  /** `str(x)` for any integer: a minus sign before the digits of |x|. */
  function IntToString(x: int): string {
    if x < 0 then "-" + ToDecimal(-x) else ToDecimal(x)
  }

  /** `int(s)` for a text made of decimal digits (leading zeros allowed). */
  function ParseDecimal(s: string): nat
    requires AllDigits(s)
  {
    if s == [] then 0 else 10 * ParseDecimal(s[..|s| - 1]) + DigitValue(s[|s| - 1])
  }

  function Pow10(k: nat): (p: nat)
    ensures p >= 1
  {
    if k == 0 then 1 else 10 * Pow10(k - 1)
  }

  function Zeros(k: nat): (z: string)
    ensures |z| == k && AllDigits(z)
    ensures forall i :: 0 <= i < k ==> z[i] == '0'
  {
    seq(k, _ => '0')
  }

  /** `'{num:0{width}}'.format(num=n, width=width)`: zeros are added in front
      up to `width` characters; a longer number is never truncated. */
  function Pad(n: nat, width: nat): string {
    var d := ToDecimal(n);
    if |d| < width then Zeros(width - |d|) + d else d
  }

  lemma {:induction false} ParseToDecimal(n: nat)
    ensures ParseDecimal(ToDecimal(n)) == n
    decreases n
  {
    if n >= 10 {
      var s := ToDecimal(n);
      assert s[..|s| - 1] == ToDecimal(n / 10);
      ParseToDecimal(n / 10);
    }
  }

  lemma ToDecimalInjective(m: nat, n: nat)
    requires ToDecimal(m) == ToDecimal(n)
    ensures m == n
  {
    ParseToDecimal(m);
    ParseToDecimal(n);
  }

  /** The number of digits of n is the k with 10^(k-1) <= n < 10^k (k = 1 for n = 0). */
  lemma {:induction false} DigitCount(n: nat)
    ensures n < Pow10(|ToDecimal(n)|)
    ensures n >= 10 ==> Pow10(|ToDecimal(n)| - 1) <= n
    decreases n
  {
    if n >= 10 {
      DigitCount(n / 10);
    }
  }

  /** A smaller number never has more digits. */
  lemma {:induction false} DigitsMonotone(m: nat, n: nat)
    requires m <= n
    ensures |ToDecimal(m)| <= |ToDecimal(n)|
    decreases n
  {
    if m >= 10 {
      DigitsMonotone(m / 10, n / 10);
    }
  }

  lemma {:induction false} ParseZeros(k: nat)
    ensures ParseDecimal(Zeros(k)) == 0
  {
    if k > 0 {
      assert Zeros(k)[..k - 1] == Zeros(k - 1);
      ParseZeros(k - 1);
    }
  }

  lemma {:induction false} ParseLeadingZeros(k: nat, s: string)
    requires AllDigits(s)
    ensures ParseDecimal(Zeros(k) + s) == ParseDecimal(s)
    decreases |s|
  {
    var t := Zeros(k) + s;
    if s == [] {
      assert t == Zeros(k);
      ParseZeros(k);
    } else {
      assert t[..|t| - 1] == Zeros(k) + s[..|s| - 1];
      ParseLeadingZeros(k, s[..|s| - 1]);
    }
  }

  /** The padded text reads back as n and is exactly `max(width, digits of n)` long. */
  lemma PadRoundTrip(n: nat, width: nat)
    ensures AllDigits(Pad(n, width))
    ensures ParseDecimal(Pad(n, width)) == n
    ensures |Pad(n, width)| == if |ToDecimal(n)| < width then width else |ToDecimal(n)|
  {
    var d := ToDecimal(n);
    ParseToDecimal(n);
    if |d| < width {
      ParseLeadingZeros(width - |d|, d);
    }
  }

  /** Every id below `bound`, padded to the width of `str(bound)`, has exactly that width. */
  lemma PadFixedWidth(id: nat, bound: nat)
    requires id < bound
    ensures |Pad(id, |ToDecimal(bound)|)| == |ToDecimal(bound)|
  {
    DigitsMonotone(id, bound);
    PadRoundTrip(id, |ToDecimal(bound)|);
  }

  lemma PadInjective(a: nat, b: nat, width: nat)
    ensures Pad(a, width) == Pad(b, width) <==> a == b
  {
    PadRoundTrip(a, width);
    PadRoundTrip(b, width);
  }
}
