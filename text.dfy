/** Decimal rendering of integers, as string interpolation in Swift and
    `std::ostringstream << int` in C++ produce it. */
module Text {

  /** The ASCII digit for a value below ten. */
  function DigitChar(d: nat): (c: char)
    requires d < 10
    ensures '0' <= c <= '9'
    ensures c as int - '0' as int == d
  {
    ('0' as int + d) as char
  }

  /** The number a string of decimal digits denotes, most significant
      digit first; the empty string denotes 0. */
  function DigitsValue(s: string): int
  {
    if s == [] then 0 else DigitsValue(s[..|s| - 1]) * 10 + (s[|s| - 1] as int - '0' as int)
  }

  /** The number a decimal string denotes, with an optional leading '-'. */
  function DecimalValue(s: string): int
  {
    if |s| > 0 && s[0] == '-' then -DigitsValue(s[1..]) else DigitsValue(s)
  }

  /** Most significant digit first, no leading zeros, "0" for zero. */
  function NatToDecimal(n: nat): (s: string)
    ensures 1 <= |s|
    ensures (|s| == 1) == (n < 10)
    ensures forall i :: 0 <= i < |s| ==> '0' <= s[i] <= '9'
    ensures s[0] == '0' ==> n == 0
    ensures DigitsValue(s) == n
  {
    if n < 10 then [DigitChar(n)]
    else
      var prefix := NatToDecimal(n / 10);
      var s := prefix + [DigitChar(n % 10)];
      assert s[..|s| - 1] == prefix;
      s
  }

  /** A leading '-' for negative values, then the digits of the magnitude. */
  function IntToDecimal(i: int): (s: string)
    ensures 1 <= |s|
    ensures (s[0] == '-') == (i < 0)
    ensures forall k :: 0 < k < |s| ==> '0' <= s[k] <= '9'
    ensures DecimalValue(s) == i
  {
    if i < 0 then
      var s := "-" + NatToDecimal(-i);
      assert s[1..] == NatToDecimal(-i);
      s
    else NatToDecimal(i)
  }

  /** Distinct numbers never render alike. */
  lemma {:induction false} NatToDecimalInjective(a: nat, b: nat)
    requires NatToDecimal(a) == NatToDecimal(b)
    ensures a == b
  {
    var s := NatToDecimal(a);
    if a >= 10 {
      assert b >= 10;
      var p := NatToDecimal(a / 10);
      assert s == p + [DigitChar(a % 10)];
      assert s == NatToDecimal(b / 10) + [DigitChar(b % 10)];
      assert p == s[..|s| - 1] == NatToDecimal(b / 10);
      NatToDecimalInjective(a / 10, b / 10);
      assert DigitChar(a % 10) == s[|s| - 1] == DigitChar(b % 10);
    } else {
      assert b < 10;
      assert s[0] == DigitChar(a) && s[0] == DigitChar(b);
    }
  }

  lemma {:induction false} IntToDecimalInjective(a: int, b: int)
    requires IntToDecimal(a) == IntToDecimal(b)
    ensures a == b
  {
    var s := IntToDecimal(a);
    if a < 0 {
      assert b < 0;
      assert NatToDecimal(-a) == s[1..] == NatToDecimal(-b);
      NatToDecimalInjective(-a, -b);
    } else {
      assert b >= 0;
      NatToDecimalInjective(a, b);
    }
  }

  /** Names of the shape `prefix + <decimal> + ")"`, such as the "VK(<code>)"
      fallback key names, differ whenever the numbers do. */
  lemma WrappedDecimalInjective(prefix: string, a: int, b: int)
    requires prefix + IntToDecimal(a) + ")" == prefix + IntToDecimal(b) + ")"
    ensures a == b
  {
    var sa := prefix + IntToDecimal(a) + ")";
    var sb := prefix + IntToDecimal(b) + ")";
    assert |IntToDecimal(a)| == |IntToDecimal(b)|;
    assert IntToDecimal(a) == sa[|prefix| .. |sa| - 1] == sb[|prefix| .. |sb| - 1] == IntToDecimal(b);
    IntToDecimalInjective(a, b);
  }
}
