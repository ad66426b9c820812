/** A hand-written recogniser for the screen-geometry trace line
    `[<tag>] RENDER: Screen(<w>x<h>) Center(<x>,<y>)`, and the "first match
    wins" search over the lines of a log. */
module ScreenLine {

  import opened Results
  import opened Strings
  import opened Decimal
  import opened Matches

  const Keyword := " RENDER: Screen("
  const CenterKeyword := " Center("

  /** `[<tag>] RENDER: Screen(<w>x<h>) Center(<x>,<y>)` followed by `trailer`. */
  function ScreenLineText(tag: string, m: ScreenMatch, trailer: string): string {
    "[" + (tag + ("]" + SizeText(m.width, m.height, CenterText(m.centerX, m.centerY, trailer))))
  }

  function SizeText(w: string, h: string, rest: string): string {
    Keyword + (w + ("x" + (h + (")" + rest))))
  }

  function CenterText(cx: string, cy: string, rest: string): string {
    CenterKeyword + (cx + ("," + (cy + (")" + rest))))
  }

  /** A non-empty digit run ended by `stop`, and the text after `stop`. */
  function DigitsBefore(s: string, stop: char): (r: Option<(string, string)>)
    ensures r.Some? ==> IsDigits(r.value.0) && s == r.value.0 + ([stop] + r.value.1)
  {
    match SplitAt(s, stop)
    case None => None
    case Some((digits, rest)) =>
      if IsDigits(digits) then Some((digits, rest)) else None
  }

  lemma DigitsBeforeOf(digits: string, stop: char, rest: string)
    requires IsDigits(digits) && !IsDigit(stop)
    ensures DigitsBefore(digits + ([stop] + rest), stop) == Some((digits, rest))
  {
    assert stop !in digits;
    SplitAtFirst(digits, stop, rest);
  }

  /** ` Center(<x>,<y>)`: the two coordinates and the text after them. */
  function ParseCenter(s: string): (r: Option<(string, string, string)>)
    ensures r.Some? ==> IsDigits(r.value.0) && IsDigits(r.value.1) && s == CenterText(r.value.0, r.value.1, r.value.2)
  {
    if !StartsWith(s, CenterKeyword) then None
    else
      match DigitsBefore(s[|CenterKeyword|..], ',')
      case None => None
      case Some((cx, s1)) =>
        match DigitsBefore(s1, ')')
        case None => None
        case Some((cy, rest)) =>
          assert s == CenterKeyword + s[|CenterKeyword|..];
          Some((cx, cy, rest))
  }

  lemma ParseCenterOf(cx: string, cy: string, rest: string)
    requires IsDigits(cx) && IsDigits(cy)
    ensures ParseCenter(CenterText(cx, cy, rest)) == Some((cx, cy, rest))
  {
    var s := CenterText(cx, cy, rest);
    assert s[..|CenterKeyword|] == CenterKeyword;
    assert s[|CenterKeyword|..] == cx + ([','] + (cy + ([')'] + rest)));
    DigitsBeforeOf(cx, ',', cy + ([')'] + rest));
    DigitsBeforeOf(cy, ')', rest);
  }

  /** ` RENDER: Screen(<w>x<h>) Center(<x>,<y>)`: the four captures and the
      text after them. */
  function ParseSize(s: string): (r: Option<(ScreenMatch, string)>)
    ensures r.Some? ==>
      && ScreenCaptured(r.value.0)
      && s == SizeText(r.value.0.width, r.value.0.height, CenterText(r.value.0.centerX, r.value.0.centerY, r.value.1))
  {
    if !StartsWith(s, Keyword) then None
    else
      match DigitsBefore(s[|Keyword|..], 'x')
      case None => None
      case Some((w, s1)) =>
        match DigitsBefore(s1, ')')
        case None => None
        case Some((h, s2)) =>
          match ParseCenter(s2)
          case None => None
          case Some((cx, cy, rest)) =>
            assert s == Keyword + s[|Keyword|..];
            Some((ScreenMatch(w, h, cx, cy), rest))
  }

  lemma ParseSizeOf(m: ScreenMatch, rest: string)
    requires ScreenCaptured(m)
    ensures ParseSize(SizeText(m.width, m.height, CenterText(m.centerX, m.centerY, rest))) == Some((m, rest))
  {
    var c := CenterText(m.centerX, m.centerY, rest);
    var s := SizeText(m.width, m.height, c);
    assert s[..|Keyword|] == Keyword;
    assert s[|Keyword|..] == m.width + (['x'] + (m.height + ([')'] + c)));
    DigitsBeforeOf(m.width, 'x', m.height + ([')'] + c));
    DigitsBeforeOf(m.height, ')', c);
    ParseCenterOf(m.centerX, m.centerY, rest);
  }

  /** Recognise a screen line; text after the closing parenthesis is ignored. */
  function ParseScreenLine(line: string): (r: Option<ScreenMatch>)
    ensures r.Some? ==> ScreenCaptured(r.value)
  {
    if |line| == 0 || line[0] != '[' then None
    else
      match SplitAt(line[1..], ']')
      case None => None
      case Some((_, s)) =>
        match ParseSize(s)
        case None => None
        case Some((m, _)) => Some(m)
  }

  /** Every well-formed screen line is recognised, with its own captures,
      whatever its tag (without ']') and whatever follows it. */
  lemma ParseFormattedLine(tag: string, m: ScreenMatch, trailer: string)
    requires ScreenCaptured(m) && ']' !in tag
    ensures ParseScreenLine(ScreenLineText(tag, m, trailer)) == Some(m)
  {
    var s := SizeText(m.width, m.height, CenterText(m.centerX, m.centerY, trailer));
    var line := ScreenLineText(tag, m, trailer);
    assert line[1..] == tag + ([']'] + s);
    SplitAtFirst(tag, ']', s);
    ParseSizeOf(m, trailer);
  }

  /** Conversely, a recognised line is a well-formed screen line followed by
      some trailer. */
  lemma ParsedLineIsFormatted(line: string)
    ensures ParseScreenLine(line).Some? ==>
      exists tag, trailer :: ']' !in tag && line == ScreenLineText(tag, ParseScreenLine(line).value, trailer)
  {
    if ParseScreenLine(line).None? {
      return;
    }
    var split := SplitAt(line[1..], ']');
    var tag, s := split.value.0, split.value.1;
    var parsed := ParseSize(s);
    var m, trailer := parsed.value.0, parsed.value.1;
    assert ParseScreenLine(line) == Some(m);
    var sized := SizeText(m.width, m.height, CenterText(m.centerX, m.centerY, trailer));
    assert s == sized;
    Reassemble(line, tag, sized);
    assert ']' !in tag && line == ScreenLineText(tag, m, trailer);
  }

  lemma Reassemble(line: string, tag: string, rest: string)
    requires |line| > 0 && line[0] == '[' && line[1..] == tag + ([']'] + rest)
    ensures line == "[" + (tag + ("]" + rest))
  {
    assert line == [line[0]] + line[1..];
  }

  /** The recogniser applied to every line. */
  function ParseLines(lines: seq<string>): (r: seq<Option<ScreenMatch>>)
    ensures |r| == |lines|
    ensures forall i :: 0 <= i < |lines| ==> r[i] == ParseScreenLine(lines[i])
  {
    if |lines| == 0 then [] else [ParseScreenLine(lines[0])] + ParseLines(lines[1..])
  }

  /** The first present value. */
  function FirstSome(xs: seq<Option<ScreenMatch>>): (r: Option<ScreenMatch>)
    ensures r.Some? <==> exists i :: 0 <= i < |xs| && xs[i].Some?
    ensures r.Some? ==> exists i :: 0 <= i < |xs| && xs[i] == r && forall j :: 0 <= j < i ==> xs[j].None?
  {
    if |xs| == 0 then None
    else if xs[0].Some? then xs[0]
    else
      var r := FirstSome(xs[1..]);
      assert forall i :: 1 <= i < |xs| ==> xs[i] == xs[1..][i - 1];
      assert r.Some? ==> exists i :: 1 <= i < |xs| && xs[i] == r && forall j :: 0 <= j < i ==> xs[j].None? by {
        if r.Some? {
          var i :| 0 <= i < |xs| - 1 && xs[1..][i] == r && forall j :: 0 <= j < i ==> xs[1..][j].None?;
          assert xs[i + 1] == r;
          assert forall j :: 0 <= j < i + 1 ==> xs[j].None? by {
            forall j | 0 <= j < i + 1 ensures xs[j].None? {
              if j > 0 { assert xs[j] == xs[1..][j - 1]; }
            }
          }
        }
      }
      r
  }

  /** `patterns['screen'].search(log)` over the lines of a log: the captures
      of the first recognised screen line, if there is one. */
  function FirstScreenMatch(lines: seq<string>): (r: Option<ScreenMatch>)
    ensures r.Some? <==> exists i :: 0 <= i < |lines| && ParseScreenLine(lines[i]).Some?
    ensures r.Some? ==> ScreenCaptured(r.value)
    ensures r.Some? ==> exists i :: (0 <= i < |lines| && ParseScreenLine(lines[i]) == r
      && forall j :: 0 <= j < i ==> ParseScreenLine(lines[j]).None?)
  {
    var ps := ParseLines(lines);
    var r := FirstSome(ps);
    assert r.Some? <==> exists i :: 0 <= i < |lines| && ParseScreenLine(lines[i]).Some? by {
      assert forall i :: 0 <= i < |lines| ==> ps[i] == ParseScreenLine(lines[i]);
    }
    r
  }

  lemma {:induction false} FirstSomeAppend(a: seq<Option<ScreenMatch>>, b: seq<Option<ScreenMatch>>)
    ensures FirstSome(a).Some? ==> FirstSome(a + b) == FirstSome(a)
    ensures FirstSome(a).None? ==> FirstSome(a + b) == FirstSome(b)
  {
    if |a| == 0 {
      assert a + b == b;
    } else {
      assert (a + b)[0] == a[0];
      assert (a + b)[1..] == a[1..] + b;
      FirstSomeAppend(a[1..], b);
    }
  }

  lemma ParseLinesAppend(a: seq<string>, b: seq<string>)
    ensures ParseLines(a + b) == ParseLines(a) + ParseLines(b)
  {
  }

  /** Only the first screen line counts: lines after it, screen lines or not,
      change nothing; lines before it that are not screen lines are skipped. */
  lemma FirstMatchWins(a: seq<string>, b: seq<string>)
    ensures FirstScreenMatch(a).Some? ==> FirstScreenMatch(a + b) == FirstScreenMatch(a)
    ensures FirstScreenMatch(a).None? ==> FirstScreenMatch(a + b) == FirstScreenMatch(b)
  {
    ParseLinesAppend(a, b);
    FirstSomeAppend(ParseLines(a), ParseLines(b));
  }
}
