/** The time label of the excerpt review (components/digital-excerpt-review.tsx). */
module ExcerptTime {
  import opened Text
  import opened Decimal

  const COLON: CodeUnit := 58
  const COMMA: CodeUnit := 44

  function Label(ms: nat): Text {
    PadStart(Digits(ms / 60_000), 2) + [COLON] + PadStart(Digits(ms / 1000 % 60), 2) + [COMMA]
    + PadStart(Digits(ms % 1000), 3)
  }

  /** What a reader takes a label for: the minutes before the colon, two digits of seconds and three of milliseconds. */
  function Read(text: Text): nat
    requires |text| > 7 && AllDigits(text[..|text| - 7])
    requires AllDigits(text[|text| - 6..|text| - 4]) && AllDigits(text[|text| - 3..])
  {
    Value(text[..|text| - 7]) * 60_000 + Value(text[|text| - 6..|text| - 4]) * 1000 + Value(text[|text| - 3..])
  }

  /** The label loses nothing: every whole number of milliseconds is read back from it, hours and days included. */
  lemma LabelIsReadBack(ms: nat)
    ensures var text := Label(ms);
            && |text| > 7 && text[|text| - 7] == COLON && text[|text| - 4] == COMMA
            && AllDigits(text[..|text| - 7]) && AllDigits(text[|text| - 6..|text| - 4])
            && AllDigits(text[|text| - 3..])
            && Read(text) == ms
  {
    var minutes, seconds, rest := Digits(ms / 60_000), Digits(ms / 1000 % 60), Digits(ms % 1000);
    assert Power(1) == 10 && Power(2) == 100 && Power(3) == 1000;
    DigitCount(ms / 1000 % 60, 100, 2);
    DigitCount(ms % 1000, 1000, 3);
    var text := Label(ms);
    assert text[..|text| - 7] == PadStart(minutes, 2);
    assert text[|text| - 6..|text| - 4] == PadStart(seconds, 2);
    assert text[|text| - 3..] == PadStart(rest, 3);
    PaddingKeepsTheValue(minutes, 2);
    PaddingKeepsTheValue(seconds, 2);
    PaddingKeepsTheValue(rest, 3);
    DigitsHaveTheirValue(ms / 60_000);
    DigitsHaveTheirValue(ms / 1000 % 60);
    DigitsHaveTheirValue(ms % 1000);
    Recombined(ms);
    hide Digits, PadStart, Value;
  }

  lemma Recombined(ms: nat)
    ensures ms == ms / 60_000 * 60_000 + ms / 1000 % 60 * 1000 + ms % 1000
  {
    assert ms / 60_000 == ms / 1000 / 60;
  }

  lemma LabelsDiffer(a: nat, b: nat)
    requires Label(a) == Label(b)
    ensures a == b
  {
    LabelIsReadBack(a);
    LabelIsReadBack(b);
  }
}
