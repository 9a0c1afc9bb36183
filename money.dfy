/** Money on the cart and checkout pages. Prices are whole lira, so every
    amount is held exactly as integer kuruş (a hundredth of a lira): 29.90
    lira is 2990, and 10% and 18% of a whole-lira subtotal are whole kuruş. */
module Money {
  import opened Text

  const Lira: nat := 100
  const FreeShippingThreshold: nat := 250 * Lira
  const ShippingFee: nat := 2990

  /** `subtotal >= 250 ? 0 : 29.90`. */
  function Shipping(subtotal: int): (r: nat)
    ensures r == 0 <==> subtotal >= FreeShippingThreshold
    ensures r == 0 || r == ShippingFee
  {
    if subtotal >= FreeShippingThreshold then 0 else ShippingFee
  }

  /** `p` percent of an amount, rounded down; exact on whole lira. */
  function Percent(amount: int, p: nat): int {
    amount * p / 100
  }

  lemma PercentExact(amount: int, p: nat)
    requires amount % Lira == 0
    ensures Percent(amount, p) * 100 == amount * p
  {
    var l := amount / Lira;
    assert amount == l * 100;
    assert amount * p == (l * p) * 100;
  }

  /** `xs.reduce((sum, x) => sum + x, 0)`. */
  function Sum(xs: seq<int>): int {
    if xs == [] then 0 else xs[0] + Sum(xs[1..])
  }

  lemma {:induction false} SumAppend(a: seq<int>, b: seq<int>)
    ensures Sum(a + b) == Sum(a) + Sum(b)
  {
    if a == [] {
      assert a + b == b;
    } else {
      assert (a + b)[1..] == a[1..] + b;
      SumAppend(a[1..], b);
    }
  }

  /** A sum of whole-lira amounts is whole lira. */
  lemma {:induction false} SumWholeLira(xs: seq<int>)
    requires forall i | 0 <= i < |xs| :: xs[i] % Lira == 0
    ensures Sum(xs) % Lira == 0
  {
    if xs != [] {
      SumWholeLira(xs[1..]);
      assert xs[0] % Lira == 0;
    }
  }

  lemma {:induction false} SumNonNegative(xs: seq<int>)
    requires forall i | 0 <= i < |xs| :: xs[i] >= 0
    ensures Sum(xs) >= 0
  {
    if xs != [] {
      SumNonNegative(xs[1..]);
    }
  }

  /** The value of a string of decimal digits. */
  function DigitsValue(s: string): nat
    requires forall i | 0 <= i < |s| :: IsDigit(s[i])
  {
    if s == [] then 0
    else
      assert IsDigit(s[|s| - 1]);
      DigitsValue(s[..|s| - 1]) * 10 + (s[|s| - 1] as int - '0' as int)
  }

  lemma TwoDigitsValue(a: nat, b: nat)
    requires a < 10 && b < 10
    ensures DigitsValue([DigitChar(a), DigitChar(b)]) == 10 * a + b
  {
    var s := [DigitChar(a), DigitChar(b)];
    assert s[..1] == [DigitChar(a)];
    assert [DigitChar(a)][..0] == [];
    assert DigitsValue([DigitChar(a)]) == a;
    assert DigitsValue(s) == DigitsValue(s[..1]) * 10 + (s[1] as int - '0' as int);
  }

  /** Reading back a number written in decimal gives the number. */
  lemma {:induction false} NatToStringValue(n: nat)
    ensures DigitsValue(NatToString(n)) == n
  {
    if n >= 10 {
      NatToStringValue(n / 10);
      var s := NatToString(n / 10);
      assert (s + [DigitChar(n % 10)])[..|s|] == s;
    }
  }

  /** `amount.toFixed(2)` for an amount in kuruş: the lira, a point and two
      digits of kuruş. */
  function FormatKurus(k: nat): (r: string)
    ensures |r| >= 4 && r[|r| - 3] == '.'
    ensures forall i | 0 <= i < |r| && i != |r| - 3 :: IsDigit(r[i])
  {
    NatToString(k / 100) + "." + [DigitChar(k / 10 % 10), DigitChar(k % 10)]
  }

  /** The printed amount reads back as the amount. */
  lemma FormatKurusValue(k: nat)
    ensures var r := FormatKurus(k);
      DigitsValue(r[..|r| - 3]) * 100 + DigitsValue(r[|r| - 2..]) == k
  {
    var r := FormatKurus(k);
    var whole := NatToString(k / 100);
    assert r[..|r| - 3] == whole;
    assert r[|r| - 2..] == [DigitChar(k / 10 % 10), DigitChar(k % 10)];
    TwoDigitsValue(k / 10 % 10, k % 10);
    NatToStringValue(k / 100);
  }
}
