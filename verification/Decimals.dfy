/** Decimal text of natural numbers, as used in ids and headers. */
module Decimals {
  import opened Wrappers

  function Digit(d: nat): char
    requires d < 10
  {
    "0123456789"[d]
  }

  predicate IsDigit(c: char) {
    '0' <= c <= '9'
  }

  predicate AllDigits(s: string) {
    forall c :: c in s ==> IsDigit(c)
  }

  function NatText(n: nat): string {
    if n < 10 then [Digit(n)] else NatText(n / 10) + [Digit(n % 10)]
  }

  /** The number a text of digits stands for. */
  function Value(s: string): nat
    requires AllDigits(s)
  {
    if s == [] then 0
    else
      assert IsDigit(s[|s| - 1]);
      10 * Value(s[..|s| - 1]) + (s[|s| - 1] as int - '0' as int)
  }

  /** `/^\d+$/` and the number. */
  function ParseNat(s: string): Option<nat> {
    if s != [] && AllDigits(s) then Some(Value(s)) else None
  }

  lemma {:induction false} NatTextRoundTrip(n: nat)
    ensures NatText(n) != [] && AllDigits(NatText(n))
    ensures Value(NatText(n)) == n
    decreases n
  {
    assert Digit(n % 10) as int - '0' as int == n % 10;
    if n < 10 {
      assert Value([Digit(n)]) == 10 * Value([]) + n;
    } else {
      NatTextRoundTrip(n / 10);
      var s := NatText(n / 10);
      assert (s + [Digit(n % 10)])[..|s|] == s;
    }
  }

  lemma ParseNatRoundTrip(n: nat)
    ensures ParseNat(NatText(n)) == Some(n)
  {
    NatTextRoundTrip(n);
  }

  function LeadingDigits(s: string): string {
    if s == [] || !IsDigit(s[0]) then [] else [s[0]] + LeadingDigits(s[1..])
  }

  /** `parseInt(s, 10)`: the digits in front; None stands for NaN. */
  function ParseLeading(s: string): Option<nat> {
    ParseNat(LeadingDigits(s))
  }

  lemma {:induction false} LeadingOfDigits(s: string)
    requires AllDigits(s)
    ensures LeadingDigits(s) == s
    decreases |s|
  {
    if s != [] {
      assert s[0] in s;
      LeadingOfDigits(s[1..]);
      assert s == [s[0]] + s[1..];
    }
  }

  lemma ParseLeadingRoundTrip(n: nat)
    ensures ParseLeading(NatText(n)) == Some(n)
  {
    NatTextRoundTrip(n);
    LeadingOfDigits(NatText(n));
  }
}
