/** Colour-token normalisation (`_hex_color_convert`): a Garmin token
    `0xRRGGBB` becomes the web form `#RRGGBB`. */
module Colors {

  import opened Strings

  const GarminPrefix := "0x"
  const WebPrefix := "#"
  const ColorWidth: nat := 6

  predicate IsHexDigit(c: char) {
    '0' <= c <= '9' || 'a' <= c <= 'f' || 'A' <= c <= 'F'
  }

  /** What `[0-9a-fA-F]+` captures. */
  predicate IsHexDigits(s: string) {
    |s| > 0 && forall i :: 0 <= i < |s| ==> IsHexDigit(s[i])
  }

  function HexDigitValue(c: char): nat
    requires IsHexDigit(c)
  {
    if '0' <= c <= '9' then c as int - '0' as int
    else if 'a' <= c <= 'f' then c as int - 'a' as int + 10
    else c as int - 'A' as int + 10
  }

  /** The number a string of hex digits denotes. */
  function HexValue(s: string): nat
    requires forall i :: 0 <= i < |s| ==> IsHexDigit(s[i])
  {
    if |s| == 0 then 0 else 16 * HexValue(s[..|s| - 1]) + HexDigitValue(s[|s| - 1])
  }

  /** `_hex_color_convert(token)`. A token starting with "0x" loses the prefix,
      is zero-filled to six characters and gains '#'; the digits are kept as
      written (no case change, no truncation). Any other token is returned as is. */
  function HexColor(token: string): (r: string)
    ensures StartsWith(token, GarminPrefix) ==>
      && |r| == 1 + Max(|token| - |GarminPrefix|, ColorWidth)
      && r[0] == '#'
    ensures !StartsWith(token, GarminPrefix) ==> r == token
  {
    if StartsWith(token, GarminPrefix) then WebPrefix + ZFill(token[|GarminPrefix|..], ColorWidth)
    else token
  }

  /** A prefixed token is the prefix followed by its digits, zero-filled. */
  lemma HexColorPrefixed(digits: string)
    ensures HexColor(GarminPrefix + digits) == WebPrefix + ZFill(digits, ColorWidth)
  {
    var token := GarminPrefix + digits;
    assert StartsWith(token, GarminPrefix);
    assert token[|GarminPrefix|..] == digits;
  }

  /** Six or more digits are kept whole: nothing is truncated. */
  lemma HexColorLong(digits: string)
    requires |digits| >= ColorWidth
    ensures HexColor(GarminPrefix + digits) == WebPrefix + digits
  {
    HexColorPrefixed(digits);
  }

  /** Under the prefix, the original digits end the result and everything
      between '#' and them is a '0'. */
  lemma HexColorPadsDigits(digits: string)
    requires !HasSign(digits)
    ensures var r := HexColor(GarminPrefix + digits);
      && |digits| < |r|
      && r[|r| - |digits|..] == digits
      && forall i :: 1 <= i < |r| - |digits| ==> r[i] == '0'
  {
    var token := GarminPrefix + digits;
    assert StartsWith(token, GarminPrefix);
    assert token[|GarminPrefix|..] == digits;
    var r := HexColor(token);
    var z := Zeros(|r| - 1 - |digits|);
    assert r == WebPrefix + z + digits;
  }

  /** Leading zeros do not change the value of a hex string. */
  lemma {:induction false} HexValueLeadingZeros(n: nat, s: string)
    requires forall i :: 0 <= i < |s| ==> IsHexDigit(s[i])
    ensures HexValue(Zeros(n) + s) == HexValue(s)
  {
    if |s| == 0 {
      assert Zeros(n) + s == Zeros(n);
      ZerosValue(n);
    } else {
      var t := Zeros(n) + s;
      assert t[..|t| - 1] == Zeros(n) + s[..|s| - 1];
      HexValueLeadingZeros(n, s[..|s| - 1]);
    }
  }

  lemma {:induction false} ZerosValue(n: nat)
    ensures HexValue(Zeros(n)) == 0
  {
    if n > 0 {
      ZerosValue(n - 1);
      var z := Zeros(n - 1);
      assert Zeros(n) == z + ['0'];
      assert (z + ['0'])[..n - 1] == z;
    }
  }

  /** A well-formed token `0x<hex>` becomes '#' followed by hex digits that
      denote the same number, at least six of them; with at most six input
      digits the result is exactly the `#RRGGBB` form. */
  lemma HexColorKeepsValue(hex: string)
    requires IsHexDigits(hex)
    ensures var r := HexColor(GarminPrefix + hex);
      && r[0] == '#'
      && IsHexDigits(r[1..])
      && HexValue(r[1..]) == HexValue(hex)
      && |r| >= 1 + ColorWidth
      && (|hex| <= ColorWidth <==> |r| == 1 + ColorWidth)
  {
    var token := GarminPrefix + hex;
    assert StartsWith(token, GarminPrefix);
    assert token[|GarminPrefix|..] == hex;
    assert !HasSign(hex) by { assert IsHexDigit(hex[0]); }
    var r := HexColor(token);
    if |hex| >= ColorWidth {
      assert r[1..] == hex;
    } else {
      assert r[1..] == Zeros(ColorWidth - |hex|) + hex;
      HexValueLeadingZeros(ColorWidth - |hex|, hex);
    }
  }

  /** A normalised colour is left alone by a second normalisation. */
  lemma HexColorIdempotent(token: string)
    ensures HexColor(HexColor(token)) == HexColor(token)
  {
    var r := HexColor(token);
    if StartsWith(token, GarminPrefix) {
      assert r[0] == '#';
    }
  }
}
