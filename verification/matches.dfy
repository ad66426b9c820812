/** The captured groups of the log-line patterns, one record per match, in
    the order the scans find them. Integer groups are `\d+` captures and are
    kept as the digit strings the pattern matched. */
module Matches {

  import opened Results
  import opened Strings
  import opened Decimal

  /** `Screen(<width>x<height>) Center(<x>,<y>)`. */
  datatype ScreenMatch = ScreenMatch(width: string, height: string, centerX: string, centerY: string)

  /** `<name>(<content>) Position(<x>,<y>) Font(<font>) Color(<color>)`. */
  datatype TextMatch = TextMatch(name: string, content: string, x: string, y: string, font: string, color: string)

  /** `<name>(<content>) Position(<x>,<y>) Size(<size>) Color(<color>)`. */
  datatype CircleMatch = CircleMatch(name: string, content: string, x: string, y: string, size: string, color: string)

  /** `<name>[(<content>)] Position(<x>,<y>) Size(<width>x<height>) Color(<color>)`;
      the content group is optional. */
  datatype RectMatch = RectMatch(
    name: string, content: Option<string>, x: string, y: string, width: string, height: string, color: string)

  predicate ScreenCaptured(m: ScreenMatch) {
    IsDigits(m.width) && IsDigits(m.height) && IsDigits(m.centerX) && IsDigits(m.centerY)
  }

  predicate TextCaptured(m: TextMatch) {
    IsDigits(m.x) && IsDigits(m.y)
  }

  /** What `[0-9.]+` captures. */
  predicate IsDecimalToken(s: string) {
    |s| > 0 && forall i :: 0 <= i < |s| ==> IsDigit(s[i]) || s[i] == '.'
  }

  predicate CircleCaptured(m: CircleMatch) {
    IsDigits(m.x) && IsDigits(m.y) && IsDecimalToken(m.size)
  }

  predicate RectCaptured(m: RectMatch) {
    IsDigits(m.x) && IsDigits(m.y) && IsDigits(m.width) && IsDigits(m.height)
  }

  /** Whether Python's `float()` accepts a token made of digits and dots:
      digits, or digits, a point and digits with at least one digit in all. */
  predicate FloatParses(s: string)
    ensures FloatParses(s) ==> |s| > 0
    ensures AllDigits(s) ==> (FloatParses(s) <==> |s| > 0)
  {
    match SplitAt(s, '.')
    case None => IsDigits(s)
    case Some((whole, fraction)) => AllDigits(whole) && AllDigits(fraction) && |whole| + |fraction| > 0
  }

  /** Digits, a point and digits, not both empty, form a float. */
  lemma FloatWithPoint(whole: string, fraction: string)
    requires AllDigits(whole) && AllDigits(fraction) && |whole| + |fraction| > 0
    ensures FloatParses(whole + (['.'] + fraction))
  {
    assert '.' !in whole by {
      forall i | 0 <= i < |whole| ensures whole[i] != '.' {
        assert IsDigit(whole[i]);
      }
    }
    SplitAtFirst(whole, '.', fraction);
  }

  /** A second point makes any token unparsable. */
  lemma FloatRejectsSecondPoint(whole: string, fraction: string)
    requires '.' !in whole && '.' in fraction
    ensures !FloatParses(whole + (['.'] + fraction))
  {
    SplitAtFirst(whole, '.', fraction);
    var i :| 0 <= i < |fraction| && fraction[i] == '.';
    assert !IsDigit(fraction[i]);
  }

  /** A decimal token is rejected exactly when it has no digit or more than
      one point. */
  lemma FloatParsesIff(s: string)
    requires IsDecimalToken(s)
    ensures FloatParses(s) <==> (exists i :: 0 <= i < |s| && IsDigit(s[i])) && DotCount(s) <= 1
  {
    if FloatParses(s) {
      FloatParsesSound(s);
    } else {
      FloatRejectedWhy(s);
    }
  }

  /** An accepted token has a digit and at most one point. */
  lemma FloatParsesSound(s: string)
    requires IsDecimalToken(s) && FloatParses(s)
    ensures (exists i :: 0 <= i < |s| && IsDigit(s[i])) && DotCount(s) <= 1
  {
    match SplitAt(s, '.')
    case None =>
      DotCountNone(s);
      assert IsDigit(s[0]);
    case Some((whole, fraction)) =>
      PointedSound(s, whole, fraction);
  }

  lemma PointedSound(s: string, whole: string, fraction: string)
    requires s == whole + (['.'] + fraction) && '.' !in whole
    requires AllDigits(whole) && AllDigits(fraction) && |whole| + |fraction| > 0
    ensures (exists i :: 0 <= i < |s| && IsDigit(s[i])) && DotCount(s) == 1
  {
    assert s == whole + ['.'] + fraction;
    DotCountConcat(whole + ['.'], fraction);
    DotCountConcat(whole, ['.']);
    DotCountNone(whole);
    DigitsNoDot(fraction);
    DotCountNone(fraction);
    if |whole| > 0 {
      assert s[0] == whole[0] && IsDigit(s[0]);
    } else {
      assert s[1] == fraction[0] && IsDigit(s[1]);
    }
  }

  lemma DigitsNoDot(t: string)
    requires AllDigits(t)
    ensures '.' !in t
  {
    forall j | 0 <= j < |t| ensures t[j] != '.' {
      assert IsDigit(t[j]);
    }
  }

  /** A rejected token has no digit or a second point. */
  lemma FloatRejectedWhy(s: string)
    requires IsDecimalToken(s) && !FloatParses(s)
    ensures !(exists i :: 0 <= i < |s| && IsDigit(s[i])) || DotCount(s) > 1
  {
    match SplitAt(s, '.')
    case None =>
    case Some((whole, fraction)) =>
      assert s == whole + ['.'] + fraction by { assert s == whole + (['.'] + fraction); }
      DotCountConcat(whole + ['.'], fraction);
      DotCountConcat(whole, ['.']);
      assert AllDigits(whole) by {
        forall j | 0 <= j < |whole| ensures IsDigit(whole[j]) {
          assert s[j] == whole[j];
        }
      }
      if !AllDigits(fraction) {
        var j :| 0 <= j < |fraction| && !IsDigit(fraction[j]);
        assert s[|whole| + 1 + j] == fraction[j];
        DotCountPositive(fraction, j);
      } else {
        assert s == ['.'];
      }
  }

  /** The number of points in `s`. */
  function DotCount(s: string): nat {
    if |s| == 0 then 0 else (if s[0] == '.' then 1 else 0) + DotCount(s[1..])
  }

  lemma {:induction false} DotCountConcat(a: string, b: string)
    ensures DotCount(a + b) == DotCount(a) + DotCount(b)
  {
    if |a| > 0 {
      assert (a + b)[1..] == a[1..] + b;
      DotCountConcat(a[1..], b);
    } else {
      assert a + b == b;
    }
  }

  lemma {:induction false} DotCountNone(s: string)
    ensures '.' !in s <==> DotCount(s) == 0
  {
    if |s| > 0 {
      DotCountNone(s[1..]);
      assert s == [s[0]] + s[1..];
    }
  }

  lemma {:induction false} DotCountPositive(s: string, j: int)
    requires 0 <= j < |s| && s[j] == '.'
    ensures DotCount(s) > 0
  {
    DotCountNone(s);
  }
}
