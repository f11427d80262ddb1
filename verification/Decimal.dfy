/** Decimal numerals, as fmt.Sprintf prints them with %d. */
module Decimal {

  function Digit(d: nat): char
    requires d < 10
  {
    "0123456789"[d]
  }

  function Itoa(n: nat): (s: string)
    ensures s != ""
    decreases n
  {
    if n < 10 then [Digit(n)] else Itoa(n / 10) + [Digit(n % 10)]
  }

  lemma {:induction false} ItoaInjective(m: nat, n: nat)
    requires Itoa(m) == Itoa(n)
    ensures m == n
    decreases m
  {
    var s := Itoa(m);
    assert s[|s| - 1] == Digit(m % 10) == Digit(n % 10);
    if m >= 10 && n >= 10 {
      assert Itoa(m / 10) == s[..|s| - 1] == Itoa(n / 10);
      ItoaInjective(m / 10, n / 10);
    }
  }

  /** A numeral embedded between a fixed prefix and suffix still identifies its number. */
  lemma AffixedInjective(prefix: string, suffix: string, m: nat, n: nat)
    requires prefix + Itoa(m) + suffix == prefix + Itoa(n) + suffix
    ensures m == n
  {
    var whole := prefix + Itoa(m) + suffix;
    assert |Itoa(m)| == |Itoa(n)|;
    assert Itoa(m) == whole[|prefix|..|prefix| + |Itoa(m)|] == Itoa(n);
    ItoaInjective(m, n);
  }
}
