/** Amounts in cents: the 64-bit parser, and when its arithmetic is exact. */
module Money {
  import opened Common
  import opened Text

  /** The parser of the source, with 64-bit arithmetic written out. */
  function Cents(value: string): Option<int> {
    if value == "" || Bytes(value) > 20 || value[0] == '-' then None else CentsOfParts(Split(value, '.'))
  }

  function CentsOfParts(parts: seq<string>): Option<int>
    requires |parts| >= 1
  {
    if |parts| > 2 || parts[0] == "" || Bytes(parts[0]) > 15 then None
    else
      var whole := ParseInt(parts[0]);
      if whole.None? then None
      else if |parts| == 1 then Some(Wrap64(whole.value * 100))
      else if Bytes(parts[1]) != 2 then None
      else
        var fraction := ParseInt(parts[1]);
        if fraction.None? then None else Some(Wrap64(Wrap64(whole.value * 100) + fraction.value))
  }

  /** The mismatch test, with 64-bit arithmetic written out. */
  function Mismatch(a: int, b: int, c: int): bool {
    Wrap64(Wrap64(a + b) - c) > 1 || Wrap64(Wrap64(c - a) - b) > 1
  }

  const LIMIT := 100_000_000_000_000_000

  lemma ParsedIntIsBounded(s: string, digits: nat)
    requires |s| <= digits <= 15 && ParseInt(s).Some?
    ensures 0 - Pow10(digits) < ParseInt(s).value < Pow10(digits)
    ensures s[0] != '-' ==> ParseInt(s).value >= 0
  {
    var rest := if s[0] in {'+', '-'} then s[1..] else s;
    NumberIsBounded(rest);
    PowersGrow(|rest|, digits);
  }

  lemma {:induction false} PowersGrow(m: nat, n: nat)
    requires m <= n
    ensures Pow10(m) <= Pow10(n)
  {
    if m < n {
      PowersGrow(m, n - 1);
    }
  }

  lemma PowerOf15()
    ensures Pow10(15) == 1_000_000_000_000_000 && Pow10(2) == 100
  {
    assert Pow10(5) == 100_000 by {
      assert Pow10(3) == 1000 && Pow10(2) == 100 && Pow10(1) == 10;
    }
    assert Pow10(10) == 10_000_000_000 by {
      assert Pow10(8) == 100_000_000 && Pow10(7) == 10_000_000 && Pow10(6) == 1_000_000;
    }
    assert Pow10(13) == 10_000_000_000_000 && Pow10(12) == 1_000_000_000_000 && Pow10(11) == 100_000_000_000;
  }

  /** On every string, no step of the parser leaves the 64-bit range. */
  lemma CentsNeverOverflow(value: string)
    requires Cents(value).Some?
    ensures -10 < Cents(value).value < LIMIT
    ensures var parts := Split(value, '.');
      && ParseInt(parts[0]).Some? && InInt64(ParseInt(parts[0]).value * 100)
      && Cents(value).value == ParseInt(parts[0]).value * 100 + (if |parts| == 2 && ParseInt(parts[1]).Some? then ParseInt(parts[1]).value else 0)
  {
    var parts := Split(value, '.');
    PowerOf15();
    BytesCoverCharacters(parts[0]);
    FirstPartStartsTheText(value, '.');
    ParsedIntIsBounded(parts[0], 15);
    var whole := ParseInt(parts[0]).value;
    InRangeIsNotWrapped(whole * 100);
    if |parts| == 2 {
      BytesCoverCharacters(parts[1]);
      var fraction := ParseInt(parts[1]).value;
      ParsedIntIsBounded(parts[1], 2);
      TwoCharactersBoundNegatives(parts[1]);
      InRangeIsNotWrapped(whole * 100 + fraction);
    }
  }

  lemma FirstPartStartsTheText(s: string, at: char)
    requires s != "" && Split(s, at)[0] != ""
    ensures Split(s, at)[0][0] == s[0]
  {
  }

  /** A sign leaves room for one digit only. */
  lemma TwoCharactersBoundNegatives(s: string)
    requires |s| <= 2 && ParseInt(s).Some?
    ensures ParseInt(s).value > -10
  {
    if s[0] in {'+', '-'} {
      NumberIsBounded(s[1..]);
      PowersGrow(|s[1..]|, 1);
      assert Pow10(1) == 10;
    }
  }

  /** On parsed amounts the mismatch test compares exact sums. */
  lemma MismatchIsExact(a: string, b: string, c: string)
    requires Cents(a).Some? && Cents(b).Some? && Cents(c).Some?
    ensures var x, y, z := Cents(a).value, Cents(b).value, Cents(c).value;
      && InInt64(x + y) && InInt64(x + y - z) && InInt64(z - x) && InInt64(z - x - y)
      && (Mismatch(x, y, z) <==> x + y - z > 1 || z - x - y > 1)
  {
    CentsNeverOverflow(a);
    CentsNeverOverflow(b);
    CentsNeverOverflow(c);
    SmallSumsAreExact(Cents(a).value, Cents(b).value, Cents(c).value);
  }

  lemma SmallSumsAreExact(x: int, y: int, z: int)
    requires -10 < x < LIMIT && -10 < y < LIMIT && -10 < z < LIMIT
    ensures InInt64(x + y) && InInt64(x + y - z) && InInt64(z - x) && InInt64(z - x - y)
    ensures Mismatch(x, y, z) <==> x + y - z > 1 || z - x - y > 1
  {
    InRangeIsNotWrapped(x + y);
    InRangeIsNotWrapped(x + y - z);
    InRangeIsNotWrapped(z - x);
    InRangeIsNotWrapped(z - x - y);
  }

  // ----- The money pattern -----

  predicate Digits(s: string) {
    s != "" && AllDigits(s)
  }

  /** One to three digits, then groups of a comma and three digits. */
  predicate Grouped(s: string) {
    1 <= |s| && (if |s| <= 3 then AllDigits(s)
                 else s[|s| - 4] == ',' && AllDigits(s[|s| - 3..]) && Grouped(s[..|s| - 4]))
  }

  /** The anchored pattern of an amount: plain or grouped digits, optionally a point and two digits. */
  predicate MoneyPattern(s: string) {
    || Digits(s) || Grouped(s)
    || (|s| > 3 && s[|s| - 3] == '.' && AllDigits(s[|s| - 2..]) && (Digits(s[..|s| - 3]) || Grouped(s[..|s| - 3])))
  }

  lemma DigitsParseAsTheirNumber(s: string)
    requires Digits(s) && |s| <= 15
    ensures ParseInt(s) == Some(Number(s)) && Number(s) < 1_000_000_000_000_000
  {
    NumberIsBounded(s);
    PowersGrow(|s|, 15);
    PowerOf15();
  }

  /** Plain amounts in the pattern parse to their value exactly when the whole part has at most 15 digits. */
  lemma CentsOfDigits(whole: string)
    requires Digits(whole)
    ensures Cents(whole) == if |whole| <= 15 then Some(Number(whole) * 100) else None
  {
    BytesOfDigits(whole);
    SplitWithout(whole, '.');
    if |whole| <= 15 {
      DigitsParseAsTheirNumber(whole);
      InRangeIsNotWrapped(Number(whole) * 100);
    }
  }

  lemma CentsOfTwoParts(whole: string, fraction: string)
    requires Digits(whole) && |whole| <= 15 && AllDigits(fraction) && |fraction| == 2
    ensures CentsOfParts([whole, fraction]) == Some(Number(whole) * 100 + Number(fraction))
  {
    BytesOfDigits(whole);
    BytesOfDigits(fraction);
    DigitsParseAsTheirNumber(whole);
    DigitsParseAsTheirNumber(fraction);
    SmallAmountIsExact(Number(whole), Number(fraction));
  }

  lemma SmallAmountIsExact(whole: int, fraction: int)
    requires 0 <= whole < 1_000_000_000_000_000 && -10 < fraction < 1_000_000_000_000_000
    ensures InInt64(whole * 100) && Wrap64(whole * 100) == whole * 100
    ensures Wrap64(Wrap64(whole * 100) + fraction) == whole * 100 + fraction
  {
    InRangeIsNotWrapped(whole * 100);
    InRangeIsNotWrapped(whole * 100 + fraction);
  }

  lemma CentsOfDecimal(whole: string, fraction: string)
    requires Digits(whole) && AllDigits(fraction) && |fraction| == 2
    ensures Cents(whole + "." + fraction) == if |whole| <= 15 then Some(Number(whole) * 100 + Number(fraction)) else None
  {
    var value := whole + "." + fraction;
    BytesOfDigits(value);
    SplitOnce(whole, '.', fraction);
    assert value == whole + ['.'] + fraction;
    if |whole| <= 15 {
      CentsOfTwoParts(whole, fraction);
    } else {
      BytesOfDigits(whole);
    }
  }

  lemma {:induction false} CommasLeaveDigits(s: string)
    requires Grouped(s)
    ensures Digits(Without(s, {','}))
    decreases |s|
  {
    if |s| <= 3 {
      WithoutKeeps(s, {','});
    } else {
      var front, back := s[..|s| - 4], s[|s| - 3..];
      assert s == front + "," + back;
      WithoutJoins(front + ",", back, {','});
      WithoutJoins(front, ",", {','});
      WithoutKeeps(back, {','});
      CommasLeaveDigits(front);
    }
  }

  /** `normalize` of an amount: no commas, always two decimals, and only what `Cents` accepts. */
  function Normalize(text: string): Option<string> {
    if !MoneyPattern(text) then None
    else
      var value := Without(text, {','});
      if Cents(value).None? then None
      else if '.' in value then Some(value) else Some(value + ".00")
  }

  lemma WholeWithoutCommas(text: string)
    requires Digits(text) || Grouped(text)
    ensures Digits(Without(text, {','}))
  {
    if Digits(text) {
      WithoutKeeps(text, {','});
    } else {
      CommasLeaveDigits(text);
    }
  }

  lemma FractionWithoutCommas(fraction: string)
    requires AllDigits(fraction)
    ensures Without("." + fraction, {','}) == "." + fraction
  {
    var t := "." + fraction;
    assert forall i :: 0 < i < |t| ==> Digit(t[i]);
    WithoutKeeps(t, {','});
  }

  lemma PartsWithoutCommas(front: string, fraction: string)
    requires AllDigits(fraction)
    ensures Without(front + ("." + fraction), {','}) == Without(front, {','}) + "." + fraction
  {
    WithoutJoins(front, "." + fraction, {','});
    FractionWithoutCommas(fraction);
  }

  lemma PartsOfDecimal(text: string)
    requires |text| > 3 && text[|text| - 3] == '.'
    ensures text == text[..|text| - 3] + ("." + text[|text| - 2..])
  {
  }

  lemma DecimalWithoutCommas(text: string)
    requires |text| > 3 && text[|text| - 3] == '.' && AllDigits(text[|text| - 2..])
    ensures Without(text, {','}) == Without(text[..|text| - 3], {','}) + "." + text[|text| - 2..]
  {
    PartsOfDecimal(text);
    PartsWithoutCommas(text[..|text| - 3], text[|text| - 2..]);
  }

  /** The canonical form: digits, a point and two digits. */
  ghost predicate Canonical(value: string, whole: string, fraction: string) {
    Digits(whole) && |whole| <= 15 && AllDigits(fraction) && |fraction| == 2 && value == whole + "." + fraction
  }

  lemma NormalizeAddsCents(text: string, whole: string)
    requires whole == Without(text, {','}) && Digits(whole)
    requires Normalize(text).Some?
    ensures Cents(whole).Some? && Normalize(text).value == whole + ".00"
  {
    assert '.' !in whole;
  }

  lemma WholeIsCanonical(whole: string, value: string)
    requires Digits(whole) && Cents(whole).Some? && value == whole + ".00"
    ensures Canonical(value, whole, "00") && Cents(whole) == Some(Number(whole) * 100)
  {
    CentsOfDigits(whole);
    assert ".00" == "." + "00";
  }

  lemma NormalizedWhole(text: string)
    requires Digits(text) || Grouped(text)
    requires Normalize(text).Some?
    ensures var whole := Without(text, {','});
      && Canonical(Normalize(text).value, whole, "00") && Cents(whole) == Some(Number(whole) * 100)
  {
    var whole := Without(text, {','});
    WholeWithoutCommas(text);
    NormalizeAddsCents(text, whole);
    WholeIsCanonical(whole, Normalize(text).value);
  }

  lemma NormalizedDecimal(text: string)
    requires !Digits(text) && !Grouped(text) && Normalize(text).Some?
    ensures var whole := Without(text[..|text| - 3], {','});
      && Canonical(Normalize(text).value, whole, text[|text| - 2..]) && Normalize(text).value == Without(text, {','})
  {
    var front := text[..|text| - 3];
    var whole := Without(front, {','});
    WholeWithoutCommas(front);
    DecimalWithoutCommas(text);
    assert Without(text, {','})[|whole|] == '.';
    CentsOfDecimal(whole, text[|text| - 2..]);
  }

  /** A normalized amount is canonical and is worth exactly what the text said. */
  lemma NormalizedAmount(text: string) returns (whole: string, fraction: string)
    requires Normalize(text).Some?
    ensures Canonical(Normalize(text).value, whole, fraction)
    ensures Cents(Normalize(text).value) == Some(Number(whole) * 100 + Number(fraction))
    ensures Cents(Without(text, {','})) == Cents(Normalize(text).value)
  {
    if Digits(text) || Grouped(text) {
      whole, fraction := Without(text, {','}), "00";
      NormalizedWhole(text);
      assert Number("00") == 0;
    } else {
      whole, fraction := Without(text[..|text| - 3], {','}), text[|text| - 2..];
      NormalizedDecimal(text);
    }
    CentsOfDecimal(whole, fraction);
  }
}
