/** Font handling of the text-element builder: `_get_font_size` and the
    `font_weight` rule. */
module Fonts {

  import opened Strings

  /** Pixel size per Garmin font name (the keys are upper case). */
  const FontSizes: map<string, int> := map["LARGE" := 24, "MEDIUM" := 18, "SMALL" := 14, "XTINY" := 10]

  const DefaultFontSize: int := 16

  /** `_get_font_size(font)`: look the upper-cased token up in the table,
      falling back to 16. */
  function FontSize(font: string): (r: int)
    ensures Upper(font) == "LARGE" ==> r == 24
    ensures Upper(font) == "MEDIUM" ==> r == 18
    ensures Upper(font) == "SMALL" ==> r == 14
    ensures Upper(font) == "XTINY" ==> r == 10
    ensures Upper(font) !in FontSizes.Keys <==> r == DefaultFontSize
  {
    var key := Upper(font);
    if key in FontSizes then FontSizes[key] else DefaultFontSize
  }

  /** The size lookup ignores ASCII case: a token and its lower-case spelling
      get the same size. */
  lemma FontSizeIgnoresCase(font: string)
    ensures FontSize(Lower(font)) == FontSize(font)
  {
    UpperOfLower(font);
  }

  /** `"bold" if "LARGE" in font else "normal"`: a case-sensitive substring
      test, unlike the size lookup. */
  function FontWeight(font: string): (r: string)
    ensures r == "bold" <==> exists i :: OccursAt(font, "LARGE", i)
    ensures r == "bold" || r == "normal"
  {
    ContainsIffWindow(font, "LARGE");
    if Contains(font, "LARGE") then "bold" else "normal"
  }
}
