/** Decimal rendering of non-negative integers, as printf's `%d` writes
    process ids, exit values and signal numbers, together with the reading
    that inverts it. */
module Decimal {

  predicate IsDigit(c: char) {
    '0' <= c <= '9'
  }

  predicate IsDigits(s: string) {
    forall i :: 0 <= i < |s| ==> IsDigit(s[i])
  }

  /** The character for a single decimal digit. */
  function Digit(d: nat): (c: char)
    requires d < 10
    ensures IsDigit(c)
    ensures c as int - '0' as int == d
  {
    ('0' as int + d) as char
  }

  /** The value of a single decimal digit character. */
  function DigitValue(c: char): (d: nat)
    requires IsDigit(c)
    ensures d < 10
    ensures Digit(d) == c
  {
    c as int - '0' as int
  }

  /** `%d` of a non-negative value: at least one digit, and no leading zero
      unless the value itself is zero. */
  function FromNat(n: nat): (s: string)
    ensures 1 <= |s|
    ensures IsDigits(s)
    ensures s[0] == '0' ==> n == 0
    decreases n
  {
    if n < 10 then [Digit(n)] else FromNat(n / 10) + [Digit(n % 10)]
  }

  /** Reads a string of digits as a decimal number. */
  function ToNat(s: string): nat
    requires IsDigits(s)
  {
    if |s| == 0 then 0 else 10 * ToNat(s[..|s| - 1]) + DigitValue(s[|s| - 1])
  }

  /** Reading back what `%d` wrote gives the value that was written. */
  lemma {:induction false} ToNatFromNat(n: nat)
    ensures ToNat(FromNat(n)) == n
    decreases n
  {
    var s := FromNat(n);
    if n >= 10 {
      assert s[..|s| - 1] == FromNat(n / 10);
      ToNatFromNat(n / 10);
    }
  }

  /** Different values are printed differently. */
  lemma FromNatInjective(m: nat, n: nat)
    requires FromNat(m) == FromNat(n)
    ensures m == n
  {
    ToNatFromNat(m);
    ToNatFromNat(n);
  }

  /** Length of the run of digits that starts `s`. */
  function DigitRun(s: string): (k: nat)
    ensures k <= |s|
    ensures IsDigits(s[..k])
    ensures k < |s| ==> !IsDigit(s[k])
  {
    if |s| == 0 || !IsDigit(s[0]) then 0
    else
      var k := 1 + DigitRun(s[1..]);
      assert s[..k] == [s[0]] + s[1..][..k - 1];
      k
  }

  /** A digit string followed by a non-digit is split exactly at its end. */
  lemma {:induction false} DigitRunOfDigits(d: string, rest: string)
    requires IsDigits(d)
    requires |rest| == 0 || !IsDigit(rest[0])
    ensures DigitRun(d + rest) == |d|
    decreases |d|
  {
    if |d| > 0 {
      assert (d + rest)[1..] == d[1..] + rest;
      DigitRunOfDigits(d[1..], rest);
    }
  }
}
