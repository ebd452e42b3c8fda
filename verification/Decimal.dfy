/** Decimal digits in JavaScript strings. */
module Decimal {
  import opened Text

  const ZERO: CodeUnit := 48

  predicate IsDigit(c: CodeUnit) {
    ZERO <= c <= ZERO + 9
  }

  predicate AllDigits(s: Text) {
    forall i :: 0 <= i < |s| ==> IsDigit(s[i])
  }

  function Value(s: Text): (n: nat)
    requires AllDigits(s)
  {
    if s == [] then 0 else Value(s[..|s| - 1]) * 10 + (s[|s| - 1] - ZERO)
  }

  /** `String(n)`. */
  function Digits(n: nat): (s: Text)
    ensures AllDigits(s) && |s| >= 1
  {
    if n < 10 then [ZERO + n] else Digits(n / 10) + [ZERO + n % 10]
  }

  /** `padStart(width, "0")`. */
  function PadStart(s: Text, width: nat): (r: Text)
    ensures |r| == if |s| < width then width else |s|
    ensures AllDigits(s) ==> AllDigits(r)
    decreases width - |s|
  {
    if |s| >= width then s else PadStart([ZERO] + s, width)
  }

  lemma {:induction false} DigitsHaveTheirValue(n: nat)
    ensures Value(Digits(n)) == n
  {
    if n >= 10 {
      DigitsHaveTheirValue(n / 10);
      assert Digits(n)[..|Digits(n)| - 1] == Digits(n / 10);
    } else {
      assert Digits(n)[..0] == [];
    }
  }

  lemma {:induction false} LeadingZeroAddsNothing(s: Text)
    requires AllDigits(s)
    ensures Value([ZERO] + s) == Value(s)
  {
    if s == [] {
      assert [ZERO] + s == [ZERO] && [ZERO][..0] == [];
    } else {
      LeadingZeroAddsNothing(s[..|s| - 1]);
      assert ([ZERO] + s)[..|s|] == [ZERO] + s[..|s| - 1];
    }
  }

  lemma {:induction false} PaddingKeepsTheValue(s: Text, width: nat)
    requires AllDigits(s)
    ensures Value(PadStart(s, width)) == Value(s)
    decreases width - |s|
  {
    if |s| < width {
      LeadingZeroAddsNothing(s);
      PaddingKeepsTheValue([ZERO] + s, width);
    }
  }

  /** A number has as many digits as it needs. */
  lemma {:induction false} DigitCount(n: nat, bound: nat, width: nat)
    requires n < bound && width >= 1 && bound == Power(width)
    ensures |Digits(n)| <= width
  {
    if n >= 10 {
      assert width > 1;
      DigitCount(n / 10, Power(width - 1), width - 1);
    }
  }

  function Power(width: nat): nat {
    if width == 0 then 1 else 10 * Power(width - 1)
  }

  lemma {:induction false} ValueIsBounded(s: Text)
    requires AllDigits(s)
    ensures Value(s) < Power(|s|)
  {
    if s != [] {
      ValueIsBounded(s[..|s| - 1]);
    }
  }
}
