// Decimal numerals, as `%d` prints them and int() reads them back.
module Decimal {

  predicate IsDigit(c: char) { '0' <= c <= '9' }

  predicate Numeral(s: string) { forall i :: 0 <= i < |s| ==> IsDigit(s[i]) }

  function DigitOf(d: nat): (c: char)
    requires d < 10
    ensures IsDigit(c)
  {
    '0' + d as char
  }

  function Dec(n: nat): (s: string)
    ensures s != "" && Numeral(s)
  {
    if n < 10 then [DigitOf(n)] else Dec(n / 10) + [DigitOf(n % 10)]
  }

  function Val(s: string): (n: nat)
    requires Numeral(s)
  {
    if s == "" then 0 else 10 * Val(s[..|s| - 1]) + (s[|s| - 1] - '0') as nat
  }

  lemma {:induction false} DecReads(n: nat)
    ensures Val(Dec(n)) == n
  {
    var s := Dec(n);
    if n >= 10 {
      DecReads(n / 10);
      assert s[..|s| - 1] == Dec(n / 10);
      assert s[|s| - 1] == DigitOf(n % 10);
    }
  }

  lemma {:induction false} DecInjective(a: nat, b: nat)
    requires Dec(a) == Dec(b)
    ensures a == b
  {
    DecReads(a);
    DecReads(b);
  }

  function Pow10(k: nat): (p: nat)
    ensures p > 0
  {
    if k == 0 then 1 else 10 * Pow10(k - 1)
  }

  // A number below 10^k takes at most k digits.
  lemma {:induction false} DecShort(n: nat, k: nat)
    requires k > 0 && n < Pow10(k)
    ensures |Dec(n)| <= k
    decreases k
  {
    if n >= 10 { DecShort(n / 10, k - 1); }
  }

  lemma {:induction false} ValSmall(s: string)
    requires Numeral(s)
    ensures Val(s) < Pow10(|s|)
    decreases |s|
  {
    if s != "" { ValSmall(s[..|s| - 1]); }
  }
}
