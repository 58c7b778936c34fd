/** Decimal digit strings: `Number.prototype.toString()` on natural numbers, and its inverse. */
module Decimal {

  predicate IsDigit(c: char) { '0' <= c <= '9' }

  predicate AllDigits(s: string) { forall i :: 0 <= i < |s| ==> IsDigit(s[i]) }

  function DigitChar(d: nat): (c: char)
    requires d < 10
    ensures IsDigit(c) && c as int - '0' as int == d
  {
    (('0' as int) + d) as char
  }

  /** The shortest decimal spelling of `n`, most significant digit first. */
  function FromNat(n: nat): (s: string)
    ensures |s| >= 1 && AllDigits(s)
    ensures n >= 10 ==> s[0] != '0'
    ensures n < 10 ==> |s| == 1
    decreases n
  {
    if n < 10 then [DigitChar(n)] else FromNat(n / 10) + [DigitChar(n % 10)]
  }

  /** The number a string of decimal digits spells. */
  function ValueOf(s: string): nat
    requires AllDigits(s)
  {
    if s == [] then 0 else ValueOf(s[..|s| - 1]) * 10 + (s[|s| - 1] as int - '0' as int)
  }

  function Pow10(k: nat): (p: nat)
    ensures p >= 1
  {
    if k == 0 then 1 else 10 * Pow10(k - 1)
  }

  /** Reading back the spelling gives the number. */
  lemma {:induction false} ValueOfFromNat(n: nat)
    ensures ValueOf(FromNat(n)) == n
  {
    if n >= 10 {
      var s := FromNat(n);
      assert s[..|s| - 1] == FromNat(n / 10);
      ValueOfFromNat(n / 10);
    }
  }

  /** A number in [10^(k-1), 10^k) is spelt with exactly k digits. */
  lemma {:induction false} LengthOfFromNat(n: nat, k: nat)
    requires k >= 1 && Pow10(k - 1) <= n < Pow10(k)
    ensures |FromNat(n)| == k
  {
    if k > 1 {
      assert Pow10(k - 2) <= n / 10 < Pow10(k - 1);
      LengthOfFromNat(n / 10, k - 1);
    }
  }

  /** A digit string with no leading zero spells a positive number. */
  lemma {:induction false} ValueOfPositive(d: string)
    requires AllDigits(d) && d != [] && d[0] != '0'
    ensures ValueOf(d) >= 1
    decreases |d|
  {
    if |d| > 1 {
      ValueOfPositive(d[..|d| - 1]);
    } else {
      assert d[..|d| - 1] == [];
    }
  }

  /** Spelling the value of a digit string without leading zeros gives that string back. */
  lemma {:induction false} FromNatValueOf(d: string)
    requires AllDigits(d) && d != [] && (|d| > 1 ==> d[0] != '0')
    ensures FromNat(ValueOf(d)) == d
    decreases |d|
  {
    var last := d[|d| - 1] as int - '0' as int;
    var p := d[..|d| - 1];
    if |d| == 1 {
      assert p == [];
      assert ValueOf(d) == last;
      assert FromNat(last)[0] == d[0];
    } else {
      ValueOfPositive(p);
      FromNatValueOf(p);
      var v := ValueOf(d);
      assert v == ValueOf(p) * 10 + last && 0 <= last < 10;
      assert v / 10 == ValueOf(p) && v % 10 == last;
      assert FromNat(v) == p + [DigitChar(last)];
      assert DigitChar(last) == d[|d| - 1];
      assert p + [d[|d| - 1]] == d;
    }
  }
}
