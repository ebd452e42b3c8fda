/** The amount of a free contribution (components/support-form.tsx): from a decimal text, through doubles, to cents. */
module SupportAmount {
  import opened Prelude
  import opened Text
  import opened Decimal

  const DOT: CodeUnit := 46
  const COMMA: CodeUnit := 44

  /** The length of the field. */
  const MAX_LENGTH: nat := 9

  /** The relative error of one rounding to nearest in binary64, 2^-53 (section 4.3.1 of IEEE 754-2019). */
  const UNIT: real := 1.0 / 9007199254740992.0

  /** How many digits the text starts with. */
  function WholeLength(s: Text): (k: nat)
    ensures k <= |s| && AllDigits(s[..k]) && (k < |s| ==> !IsDigit(s[k]))
  {
    if s == [] || !IsDigit(s[0]) then 0
    else
      var rest := WholeLength(s[1..]);
      assert s[..rest + 1] == [s[0]] + s[1..][..rest];
      rest + 1
  }

  /** The pattern of the source: digits, then possibly a dot or a comma and one or two digits. */
  predicate Accepted(s: Text) {
    var k := WholeLength(s);
    && k >= 1
    && (k == |s| ||
        ((s[k] == DOT || s[k] == COMMA) && 1 <= |s| - k - 1 <= 2 && AllDigits(s[k + 1..])))
  }

  function Decimals(s: Text): Text
    requires Accepted(s)
  {
    var k := WholeLength(s);
    if k == |s| then [] else s[k + 1..]
  }

  /** The number the text denotes. */
  function Denoted(s: Text): real
    requires Accepted(s)
  {
    var decimals := Decimals(s);
    Value(s[..WholeLength(s)]) as real + Value(decimals) as real / Power(|decimals|) as real
  }

  /** The cents its writer means. */
  function Intended(s: Text): nat
    requires Accepted(s)
  {
    var decimals := Decimals(s);
    Value(s[..WholeLength(s)]) * 100 + Value(decimals) * (if |decimals| == 2 then 1 else 10)
  }

  /** The product of the source, with the relative errors of its conversion and of its multiplication. */
  function Computed(s: Text, conversion: real, product: real): real
    requires Accepted(s)
  {
    Denoted(s) * (1.0 + conversion) * 100.0 * (1.0 + product)
  }

  function Cents(s: Text, conversion: real, product: real): int
    requires Accepted(s)
  {
    Round(Computed(s, conversion, product))
  }

  lemma IntendedIsExact(s: Text)
    requires Accepted(s)
    ensures Denoted(s) * 100.0 == Intended(s) as real
  {
    var decimals := Decimals(s);
    assert Power(0) == 1 && Power(1) == 10 && Power(2) == 100;
    assert |decimals| == 0 ==> Value(decimals) == 0;
  }

  lemma {:induction false} PowerGrows(a: nat, b: nat)
    requires a <= b
    ensures Power(a) <= Power(b)
  {
    if a < b {
      PowerGrows(a, b - 1);
    }
  }

  lemma IntendedIsSmall(s: Text)
    requires Accepted(s) && |s| <= MAX_LENGTH
    ensures 0 <= Intended(s) < 100_000_000_000
  {
    var k, decimals := WholeLength(s), Decimals(s);
    ValueIsBounded(s[..k]);
    ValueIsBounded(decimals);
    PowerGrows(k, 9);
    assert Power(0) == 1 && Power(1) == 10 && Power(2) == 100;
    assert Power(9) == 1_000_000_000 by { PowersUpToNine(); }
  }

  lemma PowersUpToNine()
    ensures Power(9) == 1_000_000_000
  {
    assert Power(3) == 1000;
    assert Power(6) == 1000 * Power(3);
    assert Power(9) == 1000 * Power(6);
  }

  lemma ErrorsStaySmall(x: real, conversion: real, product: real)
    requires 0.0 <= x <= 100_000_000_000.0
    requires -UNIT <= conversion <= UNIT && -UNIT <= product <= UNIT
    ensures -0.25 <= x * (1.0 + conversion) * (1.0 + product) - x <= 0.25
  {
    var a := x * conversion;
    Bounded(x, conversion, 100_000_000_000.0);
    var b := (x + a) * product;
    assert 0.0 <= x + a <= 200_000_000_000.0;
    Bounded(x + a, product, 200_000_000_000.0);
    assert x * (1.0 + conversion) == x + a;
    assert (x + a) * (1.0 + product) == x + a + b;
  }

  lemma Bounded(x: real, e: real, limit: real)
    requires 0.0 <= x <= limit && -UNIT <= e <= UNIT
    ensures -limit * UNIT <= x * e <= limit * UNIT
  {
    assert x * e <= x * UNIT <= limit * UNIT;
    assert x * e >= x * -UNIT >= limit * -UNIT;
  }

  lemma Reordered(d: real, x: real, conversion: real, product: real)
    requires d * 100.0 == x
    ensures d * (1.0 + conversion) * 100.0 * (1.0 + product) == x * (1.0 + conversion) * (1.0 + product)
  {
    assert d * (1.0 + conversion) * 100.0 == x * (1.0 + conversion);
  }

  lemma NearRoundsBack(y: real, n: nat)
    requires -0.25 <= y - n as real <= 0.25
    ensures Round(y) == n
  {
  }

  lemma ComputedIsNear(s: Text, conversion: real, product: real)
    requires Accepted(s) && |s| <= MAX_LENGTH
    requires -UNIT <= conversion <= UNIT && -UNIT <= product <= UNIT
    ensures -0.25 <= Computed(s, conversion, product) - Intended(s) as real <= 0.25
  {
    IntendedIsExact(s);
    IntendedIsSmall(s);
    var d, x := Denoted(s), Intended(s) as real;
    hide Accepted, Denoted, Intended;
    assert Computed(s, conversion, product) == d * (1.0 + conversion) * 100.0 * (1.0 + product);
    hide Computed;
    ErrorsStaySmall(x, conversion, product);
    Reordered(d, x, conversion, product);
  }

  /** Every amount the field accepts becomes exactly the cents it says, whichever way the two operations are rounded. */
  lemma CentsAreIntended(s: Text, conversion: real, product: real)
    requires Accepted(s) && |s| <= MAX_LENGTH
    requires -UNIT <= conversion <= UNIT && -UNIT <= product <= UNIT
    ensures Cents(s, conversion, product) == Intended(s)
  {
    hide Accepted, Computed, Intended;
    ComputedIsNear(s, conversion, product);
    NearRoundsBack(Computed(s, conversion, product), Intended(s));
  }
}
