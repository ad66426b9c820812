/** Worked examples of the colour and font helpers on concrete tokens. */
module Samples {

  import opened Strings
  import opened Colors
  import opened Fonts
  import opened Matches

  /** Colour tokens are padded on the left to six digits and a longer token
      is kept whole; a token without the `0x` prefix passes through. */
  lemma ShortColor()
    ensures HexColor("0xA") == "#00000A"
  {
    assert "0xA" == GarminPrefix + "A";
    HexColorPrefixed("A");
    assert ZFill("A", ColorWidth) == Zeros(5) + "A";
    assert Zeros(5) == "00000";
  }

  lemma LongColor()
    ensures HexColor("0x1234567") == "#1234567"
  {
    LongColorParts();
    HexColorLong("1234567");
  }

  lemma LongColorParts()
    ensures "0x1234567" == GarminPrefix + "1234567"
    ensures "#1234567" == WebPrefix + "1234567"
  {
  }

  lemma UnprefixedColor()
    ensures HexColor("red") == "red"
  {
    assert "red"[..2][0] != GarminPrefix[0];
  }

  /** A font token without a capital L is never bold. */
  lemma WeightWithoutL(font: string)
    requires forall i :: 0 <= i < |font| ==> font[i] != 'L'
    ensures FontWeight(font) == "normal"
  {
    forall i ensures !OccursAt(font, "LARGE", i) {
      if 0 <= i <= |font| - 5 {
        assert font[i..i + 5][0] == font[i];
      }
    }
  }

  /** The size lookup matches the whole upper-cased token, so "XLARGE" gets
      the default size, while the weight test finds "LARGE" inside it. */
  lemma ExtraLargeFont()
    ensures FontSize("XLARGE") == 16 && FontWeight("XLARGE") == "bold"
  {
    assert OccursAt("XLARGE", "LARGE", 1);
    assert Upper("XLARGE") == "XLARGE";
  }

  /** Lower-case names get their size but never the bold weight. */
  lemma LowerCaseLarge()
    ensures FontSize("large") == 24 && FontWeight("large") == "normal"
  {
    WeightWithoutL("large");
    assert Upper("large") == "LARGE";
  }

  lemma MixedCaseMedium()
    ensures FontSize("Medium") == 18 && FontWeight("Medium") == "normal"
  {
    WeightWithoutL("Medium");
    assert Upper("Medium") == "MEDIUM";
  }

  /** Size tokens the circle pattern admits: `float()` takes "5", "2.5", ".5"
      and "5." but not "1.2.3" or ".". */
  lemma AcceptedSizes()
    ensures FloatParses("5") && FloatParses("2.5") && FloatParses(".5") && FloatParses("5.")
  {
    PointSplits();
    FloatWithPoint("2", "5");
    FloatWithPoint("", "5");
    FloatWithPoint("5", "");
  }

  lemma PointSplits()
    ensures "2.5" == "2" + (['.'] + "5")
    ensures ".5" == "" + (['.'] + "5")
    ensures "5." == "5" + (['.'] + "")
    ensures "1.2.3" == "1" + (['.'] + "2.3")
    ensures "." == "" + (['.'] + "")
  {
  }

  lemma RejectedSizes()
    ensures !FloatParses("1.2.3") && !FloatParses(".")
  {
    PointSplits();
    FloatRejectsSecondPoint("1", "2.3");
    SplitAtFirst("", '.', "");
  }
}
