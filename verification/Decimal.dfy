/** Decimal numerals, as template strings print them. */
module Decimal {
  function DigitChar(d: nat): char
    requires d < 10
  {
    '0' + (d as char)
  }

  function Digits(n: nat): (s: string)
    ensures |s| >= 1
  {
    if n < 10 then [DigitChar(n)] else Digits(n / 10) + [DigitChar(n % 10)]
  }

  /** The number that a numeral denotes. */
  function Value(s: string): int {
    if s == [] then 0 else 10 * Value(s[..|s| - 1]) + (s[|s| - 1] as int - '0' as int)
  }

  lemma {:induction false} ValueOfDigits(n: nat)
    ensures Value(Digits(n)) == n
  {
    if n < 10 {
      assert Digits(n)[..0] == [];
    } else {
      ValueOfDigits(n / 10);
      assert Digits(n)[..|Digits(n)| - 1] == Digits(n / 10);
    }
  }

  lemma {:induction false} OnlyDigits(n: nat, i: nat)
    requires i < |Digits(n)|
    ensures '0' <= Digits(n)[i] <= '9'
  {
    if n >= 10 && i < |Digits(n)| - 1 { OnlyDigits(n / 10, i); }
  }

  /** A numeral followed by a colon can be told from what follows. */
  lemma DigitsThenColon(m: nat, n: nat, x: string, y: string)
    requires Digits(m) + ":" + x == Digits(n) + ":" + y
    ensures m == n && x == y
  {
    var a, b := Digits(m), Digits(n);
    var s := a + ":" + x;
    assert s == b + ":" + y;
    assert s[|a|] == ':' && s[|b|] == ':';
    if |a| < |b| { assert s[|a|] == b[|a|]; OnlyDigits(n, |a|); }
    if |b| < |a| { assert s[|b|] == a[|b|]; OnlyDigits(m, |b|); }
    assert |a| == |b|;
    assert a == s[..|a|] == b;
    assert x == s[|a| + 1..] == y;
    ValueOfDigits(m);
    ValueOfDigits(n);
  }
}
