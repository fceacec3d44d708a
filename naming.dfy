/**
  The integer formatting the scripts use in object names: `f"{n}"` and `f"{n:02d}"`,
  with the reading of a digit string back into its number as their inverse.
 */
module Naming {

  function Digit(d: nat): (c: char)
    requires d < 10
    ensures '0' <= c <= '9'
  {
    ['0', '1', '2', '3', '4', '5', '6', '7', '8', '9'][d]
  }

  predicate IsDigits(s: string)
  {
    forall i :: 0 <= i < |s| ==> '0' <= s[i] <= '9'
  }

  /** `f"{n}"` for a non-negative `n`: its decimal digits, no leading zero. */
  function Decimal(n: nat): (s: string)
    ensures |s| > 0 && IsDigits(s)
    ensures n < 10 <==> |s| == 1
    decreases n
  {
    if n < 10 then [Digit(n)] else Decimal(n / 10) + [Digit(n % 10)]
  }

  /** `f"{n:02d}"`: at least two digits, padded on the left with a zero. */
  function Pad2(n: nat): (s: string)
    ensures IsDigits(s)
  {
    if n < 10 then ['0'] + Decimal(n) else Decimal(n)
  }

  /** The number a digit string denotes (the inverse of the two formats above). */
  function Parse(s: string): nat
    requires IsDigits(s)
  {
    if s == [] then 0 else 10 * Parse(s[..|s| - 1]) + ((s[|s| - 1] as int) - ('0' as int))
  }

  lemma DigitValue(d: nat)
    requires d < 10
    ensures (Digit(d) as int) - ('0' as int) == d
  {
  }

  lemma {:induction false} ParseDecimal(n: nat)
    ensures Parse(Decimal(n)) == n
    decreases n
  {
    var s := Decimal(n);
    if n < 10 {
      assert s[..0] == [];
      DigitValue(n);
    } else {
      assert s[..|s| - 1] == Decimal(n / 10);
      ParseDecimal(n / 10);
      DigitValue(n % 10);
    }
  }

  lemma {:induction false} ParsePad2(n: nat)
    ensures Parse(Pad2(n)) == n
  {
    ParseDecimal(n);
    if n < 10 {
      var s := Pad2(n);
      assert s[..|s| - 1] == ['0'];
      assert ['0'][..0] == [];
    }
  }

  /** Two-digit padding has width exactly two below one hundred. */
  lemma {:induction false} Pad2Width(n: nat)
    requires n < 100
    ensures |Pad2(n)| == 2
  {
    if n >= 10 {
      assert Decimal(n) == Decimal(n / 10) + [Digit(n % 10)];
    }
  }

  /** Different numbers get different names: the formats are injective. */
  lemma DecimalInjective(m: nat, n: nat)
    requires Decimal(m) == Decimal(n)
    ensures m == n
  {
    ParseDecimal(m);
    ParseDecimal(n);
  }

  lemma Pad2Injective(m: nat, n: nat)
    requires Pad2(m) == Pad2(n)
    ensures m == n
  {
    ParsePad2(m);
    ParsePad2(n);
  }

  /** A prefix followed by a number: distinct numbers give distinct names. */
  lemma PrefixedDistinct(prefix: string, a: string, b: string)
    requires prefix + a == prefix + b
    ensures a == b
  {
    assert a == (prefix + a)[|prefix|..];
    assert b == (prefix + b)[|prefix|..];
  }
}
