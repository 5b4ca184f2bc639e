/** Decimal rendering of natural numbers, as JavaScript's `toString()` and
    template literals write an integer, with its inverse. */
module Decimal {

  predicate IsDigit(c: char) {
    '0' <= c <= '9'
  }

  function DigitChar(d: nat): (c: char)
    requires d < 10
    ensures IsDigit(c) && c as int - '0' as int == d
  {
    ('0' as int + d) as char
  }

  /** The shortest decimal numeral of n. */
  function NatToString(n: nat): (s: string)
    ensures |s| >= 1
    ensures forall i :: 0 <= i < |s| ==> IsDigit(s[i])
    ensures |s| > 1 ==> s[0] != '0'
    decreases n
  {
    if n < 10 then [DigitChar(n)] else NatToString(n / 10) + [DigitChar(n % 10)]
  }

  /** The value of a string of digits (`parseInt` on such a string). */
  function ParseDigits(s: string): nat
    requires forall i :: 0 <= i < |s| ==> IsDigit(s[i])
  {
    if |s| == 0 then 0
    else 10 * ParseDigits(s[..|s| - 1]) + DigitValue(s[|s| - 1])
  }

  function DigitValue(c: char): (d: nat)
    requires IsDigit(c)
    ensures d < 10
  {
    c as int - '0' as int
  }

  lemma {:induction false} ParseNatToString(n: nat)
    ensures ParseDigits(NatToString(n)) == n
    decreases n
  {
    var s := NatToString(n);
    if n >= 10 {
      ParseNatToString(n / 10);
      assert s[..|s| - 1] == NatToString(n / 10);
    }
  }

  lemma NatToStringInjective(a: nat, b: nat)
    requires NatToString(a) == NatToString(b)
    ensures a == b
  {
    ParseNatToString(a);
    ParseNatToString(b);
  }

  /** If two strings `x + [sep] + u` and `y + [sep] + v` are equal and the
      tails u and v do not contain sep, the tails are equal. */
  lemma SuffixAfterSeparator(x: string, u: string, y: string, v: string, sep: char)
    requires forall i :: 0 <= i < |u| ==> u[i] != sep
    requires forall i :: 0 <= i < |v| ==> v[i] != sep
    requires x + [sep] + u == y + [sep] + v
    ensures u == v
  {
    var w := x + [sep] + u;
    assert forall k :: |w| - |u| <= k < |w| ==> w[k] == u[k - (|w| - |u|)];
    assert forall k :: |w| - |v| <= k < |w| ==> w[k] == v[k - (|w| - |v|)];
    assert w[|w| - 1 - |u|] == sep;
    assert w[|w| - 1 - |v|] == sep;
    assert |u| == |v|;
    assert u == w[|w| - |u|..];
    assert v == w[|w| - |v|..];
  }
}
