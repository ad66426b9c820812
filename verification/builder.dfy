/** The model builder (`_parse_debug_logs` after the pattern scans): from the
    per-category matches, the optional device hint and the capture time, build
    the UI-state document. */
module Builder {

  import opened Results
  import opened Strings
  import opened Decimal
  import opened Colors
  import opened Fonts
  import opened UiState
  import opened Matches

  const SchemaVersion := "1.0"
  const DefaultAppName := "Garmin App"
  const DefaultDevice := "fenix7"
  const DefaultScreenSize := 260
  const DefaultCenter := 130
  const CaptureSource := "debug_logs"
  const DefaultBackground := "#000000"
  /** `1.0` as Python renders the float. */
  const UnitFloat := "1.0"
  const TextAnchor := "middle"
  const TextZ := 10
  const CircleZ := 5
  const RectZ := 8

  /** `float(size)` raised `ValueError` on a circle size token. */
  datatype BuildError = InvalidRadius(size: string)

  /** `device or "fenix7"`: a missing or empty hint falls back to the default. */
  function DeviceModel(device: Option<string>): (r: string)
    ensures r != ""
    ensures device.Some? && device.value != "" ==> r == device.value
    ensures r == DefaultDevice || device == Some(r)
  {
    match device
    case Some(d) => if d == "" then DefaultDevice else d
    case None => DefaultDevice
  }

  /** The document before any match is applied; `now` stands for
      `datetime.now().isoformat()`, to which "Z" is appended. */
  function InitialDocument(device: Option<string>, now: string): (r: Document)
    ensures r.version == SchemaVersion && r.elements == [] && r.state == map[]
    ensures r.metadata.deviceModel == DeviceModel(device) && r.metadata.timestamp == now + "Z"
    ensures r.screen.centerX * 2 == r.metadata.screenWidth && r.screen.centerY * 2 == r.metadata.screenHeight
  {
    Document(
      SchemaVersion,
      Metadata(DefaultAppName, DeviceModel(device), DefaultScreenSize, DefaultScreenSize, now + "Z", CaptureSource),
      Screen(DefaultBackground, UnitFloat, DefaultCenter, DefaultCenter),
      [],
      map[])
  }

  /** Apply a screen match: its four integers replace width, height and centre. */
  function WithScreen(d: Document, m: ScreenMatch): (r: Document)
    requires ScreenCaptured(m)
    ensures r.metadata.screenWidth == ParseDigits(m.width) && r.metadata.screenHeight == ParseDigits(m.height)
    ensures r.screen.centerX == ParseDigits(m.centerX) && r.screen.centerY == ParseDigits(m.centerY)
    ensures r.(metadata := d.metadata, screen := d.screen) == d
    ensures r.metadata.(screenWidth := d.metadata.screenWidth, screenHeight := d.metadata.screenHeight) == d.metadata
    ensures r.screen.(centerX := d.screen.centerX, centerY := d.screen.centerY) == d.screen
  {
    d.(metadata := d.metadata.(screenWidth := ParseDigits(m.width), screenHeight := ParseDigits(m.height)),
       screen := d.screen.(centerX := ParseDigits(m.centerX), centerY := ParseDigits(m.centerY)))
  }

  /** `f"{name.lower()}_{counter}"`. */
  function MakeId(name: string, counter: nat): string {
    Lower(name) + "_" + NatToString(counter)
  }

  /** The text after the last '_' of `s` (all of `s` when there is none). */
  function LastSegment(s: string): string {
    if |s| == 0 then s
    else if s[|s| - 1] == '_' then []
    else LastSegment(s[..|s| - 1]) + [s[|s| - 1]]
  }

  /** The element counter an id ends in, if it ends in one. */
  function IdCounter(id: string): Option<nat> {
    var digits := LastSegment(id);
    if IsDigits(digits) then Some(ParseDigits(digits)) else None
  }

  lemma {:induction false} LastSegmentAfter(prefix: string, tail: string)
    requires '_' !in tail
    ensures LastSegment(prefix + "_" + tail) == tail
  {
    var s := prefix + "_" + tail;
    if |tail| > 0 {
      assert s[..|s| - 1] == prefix + "_" + tail[..|tail| - 1];
      LastSegmentAfter(prefix, tail[..|tail| - 1]);
      assert tail == tail[..|tail| - 1] + [tail[|tail| - 1]];
    }
  }

  /** The counter can be read back from any id: whatever the element name
      (even one holding '_' or digits), the id ends in "_<counter>". */
  lemma IdCounterOfMakeId(name: string, counter: nat)
    ensures IdCounter(MakeId(name, counter)) == Some(counter)
  {
    var digits := NatToString(counter);
    assert '_' !in digits;
    LastSegmentAfter(Lower(name), digits);
    ParseNatToString(counter);
  }

  /** An id is the lower-cased name, one '_' and the counter's canonical
      digits, which read back as the counter. */
  lemma MakeIdParts(name: string, counter: nat)
    ensures var id := MakeId(name, counter);
      && |name| < |id| && id[..|name|] == Lower(name) && id[|name|] == '_'
      && IsCanonical(id[|name| + 1..]) && ParseDigits(id[|name| + 1..]) == counter
  {
    var id := MakeId(name, counter);
    assert id[|name| + 1..] == NatToString(counter);
    ParseNatToString(counter);
  }

  /** A text element: z-index 10, its id ending in the counter. */
  function TextElement(m: TextMatch, counter: nat): Element
    requires TextCaptured(m)
  {
    Element(
      MakeId(m.name, counter),
      Text(m.content, Lower(m.font), FontSize(m.font), FontWeight(m.font), TextAnchor),
      ParseDigits(m.x), ParseDigits(m.y), HexColor(m.color), TextZ, true, UnitFloat)
  }

  /** A circle element: z-index 5, its id ending in the counter. */
  function CircleElement(m: CircleMatch, counter: nat): Element
    requires CircleCaptured(m)
  {
    Element(
      MakeId(m.name, counter),
      Circle(m.size),
      ParseDigits(m.x), ParseDigits(m.y), HexColor(m.color), CircleZ, true, UnitFloat)
  }

  /** A rectangle element: z-index 8, its id ending in the counter. The
      optional content group of a rectangle is not stored. */
  function RectElement(m: RectMatch, counter: nat): Element
    requires RectCaptured(m)
  {
    Element(
      MakeId(m.name, counter),
      Rect(ParseDigits(m.width), ParseDigits(m.height)),
      ParseDigits(m.x), ParseDigits(m.y), HexColor(m.color), RectZ, true, UnitFloat)
  }

  /** The text elements in closed form: match `i` becomes the element with
      counter `first + i`. */
  function TextElements(ms: seq<TextMatch>, first: nat): (r: seq<Element>)
    requires forall i :: 0 <= i < |ms| ==> TextCaptured(ms[i])
    ensures |r| == |ms|
    ensures forall i :: 0 <= i < |ms| ==> r[i] == TextElement(ms[i], first + i)
  {
    seq(|ms|, i requires 0 <= i < |ms| => TextElement(ms[i], first + i))
  }

  /** What an element loop leaves behind: the elements it appended and the
      value of the shared `element_id` counter after it. */
  datatype Numbered = Numbered(elements: seq<Element>, next: nat)

  /** The closed form grows by one element per match. */
  lemma TextElementsSnoc(ms: seq<TextMatch>, first: nat)
    requires forall i :: 0 <= i < |ms| ==> TextCaptured(ms[i])
    requires |ms| > 0
    ensures TextElements(ms, first) == TextElements(ms[..|ms| - 1], first) + [TextElement(ms[|ms| - 1], first + |ms| - 1)]
  {
  }

  /** The text loop as written, run up to its last iteration: the earlier
      matches are numbered first, and the last match takes the counter they
      leave behind. It advances the counter by the number of matches. */
  function TextLoop(ms: seq<TextMatch>, counter: nat): (r: Numbered)
    requires forall i :: 0 <= i < |ms| ==> TextCaptured(ms[i])
    ensures r.next == counter + |ms|
    ensures |r.elements| == |ms|
    decreases |ms|
  {
    if |ms| == 0 then Numbered([], counter)
    else
      var done := TextLoop(ms[..|ms| - 1], counter);
      Numbered(done.elements + [TextElement(ms[|ms| - 1], done.next)], done.next + 1)
  }

  /** The text loop yields exactly the closed form: match `i` is numbered
      `counter + i`. */
  lemma {:induction false} TextLoopClosedForm(ms: seq<TextMatch>, counter: nat)
    requires forall i :: 0 <= i < |ms| ==> TextCaptured(ms[i])
    ensures TextLoop(ms, counter).elements == TextElements(ms, counter)
    decreases |ms|
  {
    if |ms| > 0 {
      TextLoopClosedForm(ms[..|ms| - 1], counter);
      TextElementsSnoc(ms, counter);
    }
  }

  /** The index of the first circle whose size token `float()` rejects, or
      the number of circles when there is none. */
  function FirstInvalidSize(ms: seq<CircleMatch>): (k: nat)
    ensures k <= |ms|
    ensures forall j :: 0 <= j < k ==> FloatParses(ms[j].size)
    ensures k < |ms| ==> !FloatParses(ms[k].size)
  {
    if |ms| == 0 then 0
    else if !FloatParses(ms[0].size) then 0
    else 1 + FirstInvalidSize(ms[1..])
  }

  lemma SomeInvalidSize(ms: seq<CircleMatch>)
    ensures FirstInvalidSize(ms) < |ms| <==> exists i :: 0 <= i < |ms| && !FloatParses(ms[i].size)
  {
  }

  /** The circle loop. It stops at the first size token `float()` rejects. */
  function CircleElements(ms: seq<CircleMatch>, first: nat): (r: Result<seq<Element>, BuildError>)
    requires forall i :: 0 <= i < |ms| ==> CircleCaptured(ms[i])
    ensures r.Err? <==> exists i :: 0 <= i < |ms| && !FloatParses(ms[i].size)
    ensures r.Err? ==> r.error == InvalidRadius(ms[FirstInvalidSize(ms)].size)
    ensures r.Ok? ==> |r.value| == |ms|
    ensures r.Ok? ==> forall i :: 0 <= i < |ms| ==> r.value[i] == CircleElement(ms[i], first + i)
  {
    var k := FirstInvalidSize(ms);
    SomeInvalidSize(ms);
    if k < |ms| then Err(InvalidRadius(ms[k].size))
    else Ok(seq(|ms|, i requires 0 <= i < |ms| => CircleElement(ms[i], first + i)))
  }

  /** The rectangle elements in closed form. */
  function RectElements(ms: seq<RectMatch>, first: nat): (r: seq<Element>)
    requires forall i :: 0 <= i < |ms| ==> RectCaptured(ms[i])
    ensures |r| == |ms|
    ensures forall i :: 0 <= i < |ms| ==> r[i] == RectElement(ms[i], first + i)
  {
    seq(|ms|, i requires 0 <= i < |ms| => RectElement(ms[i], first + i))
  }

  /** The closed form grows by one element per match. */
  lemma RectElementsSnoc(ms: seq<RectMatch>, first: nat)
    requires forall i :: 0 <= i < |ms| ==> RectCaptured(ms[i])
    requires |ms| > 0
    ensures RectElements(ms, first) == RectElements(ms[..|ms| - 1], first) + [RectElement(ms[|ms| - 1], first + |ms| - 1)]
  {
  }

  /** The rectangle loop as written, threading the counter like the text loop. */
  function RectLoop(ms: seq<RectMatch>, counter: nat): (r: Numbered)
    requires forall i :: 0 <= i < |ms| ==> RectCaptured(ms[i])
    ensures r.next == counter + |ms|
    ensures |r.elements| == |ms|
    decreases |ms|
  {
    if |ms| == 0 then Numbered([], counter)
    else
      var done := RectLoop(ms[..|ms| - 1], counter);
      Numbered(done.elements + [RectElement(ms[|ms| - 1], done.next)], done.next + 1)
  }

  /** The rectangle loop yields exactly the closed form: match `i` is numbered
      `counter + i`. */
  lemma {:induction false} RectLoopClosedForm(ms: seq<RectMatch>, counter: nat)
    requires forall i :: 0 <= i < |ms| ==> RectCaptured(ms[i])
    ensures RectLoop(ms, counter).elements == RectElements(ms, counter)
    decreases |ms|
  {
    if |ms| > 0 {
      RectLoopClosedForm(ms[..|ms| - 1], counter);
      RectElementsSnoc(ms, counter);
    }
  }

  /** The three element loops of `_parse_debug_logs` in order: text first, then
      circles, then rectangles, each group in match order, and one counter
      starting at 1 numbering all of them. An unparsable circle size aborts. */
  function AllElements(texts: seq<TextMatch>, circles: seq<CircleMatch>, rects: seq<RectMatch>)
    : (r: Result<seq<Element>, BuildError>)
    requires forall i :: 0 <= i < |texts| ==> TextCaptured(texts[i])
    requires forall i :: 0 <= i < |circles| ==> CircleCaptured(circles[i])
    requires forall i :: 0 <= i < |rects| ==> RectCaptured(rects[i])
    ensures r.Err? <==> exists i :: 0 <= i < |circles| && !FloatParses(circles[i].size)
    ensures r.Err? ==> r.error == InvalidRadius(circles[FirstInvalidSize(circles)].size)
    ensures r.Ok? ==> |r.value| == |texts| + |circles| + |rects|
    ensures r.Ok? ==> r.value[..|texts|] == TextElements(texts, 1)
    ensures r.Ok? ==> r.value[|texts|..|texts| + |circles|] == CircleElements(circles, |texts| + 1).value
    ensures r.Ok? ==> r.value[|texts| + |circles|..] == RectElements(rects, |texts| + |circles| + 1)
  {
    SomeInvalidSize(circles);
    match CircleElements(circles, |texts| + 1)
    case Err(e) => Err(e)
    case Ok(cs) =>
      var ts := TextElements(texts, 1);
      var rs := RectElements(rects, |texts| + |circles| + 1);
      assert (ts + cs + rs)[..|ts|] == ts;
      assert (ts + cs + rs)[|ts|..|ts| + |cs|] == cs;
      assert (ts + cs + rs)[|ts| + |cs|..] == rs;
      Ok(ts + cs + rs)
  }

  /** The text loop runs first on a counter starting at 1: its elements open
      the list, and the counter it leaves behind is `|texts| + 1`, the first
      counter `AllElements` passes to `CircleElements`. */
  lemma TextLoopFirst(texts: seq<TextMatch>, circles: seq<CircleMatch>, rects: seq<RectMatch>)
    requires forall i :: 0 <= i < |texts| ==> TextCaptured(texts[i])
    requires forall i :: 0 <= i < |circles| ==> CircleCaptured(circles[i])
    requires forall i :: 0 <= i < |rects| ==> RectCaptured(rects[i])
    ensures var r := AllElements(texts, circles, rects);
      r.Ok? ==> r.value[..|texts|] == TextLoop(texts, 1).elements
    ensures TextLoop(texts, 1).next == |texts| + 1
  {
    TextLoopClosedForm(texts, 1);
  }

  /** `_parse_debug_logs` on already-scanned matches. `screen` is the first
      screen match (`search`), the other sequences are the `finditer` results.
      The document fails exactly when the element loops fail; otherwise it
      carries their elements, schema version "1.0" and an empty state map. */
  function BuildDocument(
    screen: Option<ScreenMatch>,
    texts: seq<TextMatch>,
    circles: seq<CircleMatch>,
    rects: seq<RectMatch>,
    device: Option<string>,
    now: string): (r: Result<Document, BuildError>)
    requires screen.Some? ==> ScreenCaptured(screen.value)
    requires forall i :: 0 <= i < |texts| ==> TextCaptured(texts[i])
    requires forall i :: 0 <= i < |circles| ==> CircleCaptured(circles[i])
    requires forall i :: 0 <= i < |rects| ==> RectCaptured(rects[i])
    ensures r.Err? <==> exists i :: 0 <= i < |circles| && !FloatParses(circles[i].size)
    ensures r.Err? ==> r.error == AllElements(texts, circles, rects).error
    ensures r.Ok? ==> r.value.elements == AllElements(texts, circles, rects).value
    ensures r.Ok? ==> r.value.version == SchemaVersion && r.value.state == map[]
  {
    var base := InitialDocument(device, now);
    var d := if screen.Some? then WithScreen(base, screen.value) else base;
    match AllElements(texts, circles, rects)
    case Err(e) => Err(e)
    case Ok(es) => Ok(d.(elements := es))
  }

  /** True when every match record carries the captures its pattern guarantees. */
  predicate AllCaptured(
    screen: Option<ScreenMatch>, texts: seq<TextMatch>, circles: seq<CircleMatch>, rects: seq<RectMatch>)
  {
    && (screen.Some? ==> ScreenCaptured(screen.value))
    && (forall i :: 0 <= i < |texts| ==> TextCaptured(texts[i]))
    && (forall i :: 0 <= i < |circles| ==> CircleCaptured(circles[i]))
    && (forall i :: 0 <= i < |rects| ==> RectCaptured(rects[i]))
  }

  /** Without a screen match the metadata and screen keep their defaults: a
      260x260 screen centred at (130,130), the device hint or "fenix7", the
      capture source "debug_logs"; with no element match either, the document
      has no elements, and the state map is always empty. */
  lemma BuildWithoutScreen(
    texts: seq<TextMatch>, circles: seq<CircleMatch>, rects: seq<RectMatch>, device: Option<string>, now: string)
    requires AllCaptured(None, texts, circles, rects)
    ensures var r := BuildDocument(None, texts, circles, rects, device, now);
      r.Ok? ==>
        && r.value.metadata == Metadata("Garmin App", DeviceModel(device), 260, 260, now + "Z", "debug_logs")
        && r.value.screen == Screen("#000000", "1.0", 130, 130)
        && r.value.screen.centerX * 2 == r.value.metadata.screenWidth
        && r.value.screen.centerY * 2 == r.value.metadata.screenHeight
        && r.value.state == map[]
    ensures texts == [] && circles == [] && rects == [] ==>
      BuildDocument(None, texts, circles, rects, device, now).Ok?
      && BuildDocument(None, texts, circles, rects, device, now).value.elements == []
  {
  }

  /** A screen match replaces exactly the screen width and height and the
      centre coordinates; every other part of the document is the same as
      without it. */
  lemma BuildScreenOverride(
    m: ScreenMatch, texts: seq<TextMatch>, circles: seq<CircleMatch>, rects: seq<RectMatch>,
    device: Option<string>, now: string)
    requires AllCaptured(Some(m), texts, circles, rects)
    ensures var r0 := BuildDocument(None, texts, circles, rects, device, now);
      var r := BuildDocument(Some(m), texts, circles, rects, device, now);
      && r.Ok? == r0.Ok?
      && (r.Ok? ==>
        r.value == r0.value.(
          metadata := r0.value.metadata.(screenWidth := ParseDigits(m.width), screenHeight := ParseDigits(m.height)),
          screen := r0.value.screen.(centerX := ParseDigits(m.centerX), centerY := ParseDigits(m.centerY))))
  {
  }

  /** Element `i` of a built document is built from match `i` of its group. */
  lemma BuiltElementAt(
    screen: Option<ScreenMatch>, texts: seq<TextMatch>, circles: seq<CircleMatch>, rects: seq<RectMatch>,
    device: Option<string>, now: string, i: nat)
    requires AllCaptured(screen, texts, circles, rects)
    requires BuildDocument(screen, texts, circles, rects, device, now).Ok?
    requires i < |texts| + |circles| + |rects|
    ensures var e := BuildDocument(screen, texts, circles, rects, device, now).value.elements[i];
      var n, m := |texts|, |circles|;
      && (i < n ==> e == TextElement(texts[i], i + 1))
      && (n <= i < n + m ==> e == CircleElement(circles[i - n], i + 1))
      && (n + m <= i ==> e == RectElement(rects[i - n - m], i + 1))
  {
    var es := BuildDocument(screen, texts, circles, rects, device, now).value.elements;
    var n, m := |texts|, |circles|;
    if i < n {
      assert es[i] == es[..n][i];
    } else if i < n + m {
      assert es[i] == es[n..n + m][i - n];
    } else {
      assert es[i] == es[n + m..][i - n - m];
    }
  }

  /** Each element constructor gives the counter back from the id and has
      its own shape. The id starts with the lower-cased name; the element has
      its type's z-index, is visible with opacity 1.0, and takes position and
      converted colour from its match. */
  lemma TextElementId(m: TextMatch, counter: nat)
    requires TextCaptured(m)
    ensures IdCounter(TextElement(m, counter).id) == Some(counter)
    ensures TextElement(m, counter).shape.Text?
  {
    IdCounterOfMakeId(m.name, counter);
  }

  lemma TextElementFields(m: TextMatch, counter: nat)
    requires TextCaptured(m)
    ensures var e := TextElement(m, counter);
      && StartsWith(e.id, Lower(m.name) + "_")
      && e.zIndex == TextZ && e.visible && e.opacity == UnitFloat
      && e.x == ParseDigits(m.x) && e.y == ParseDigits(m.y) && e.fillColor == HexColor(m.color)
  {
    var e := TextElement(m, counter);
    assert e.id == Lower(m.name) + "_" + NatToString(counter);
    assert e.id[..|Lower(m.name) + "_"|] == Lower(m.name) + "_";
  }

  lemma CircleElementId(m: CircleMatch, counter: nat)
    requires CircleCaptured(m)
    ensures IdCounter(CircleElement(m, counter).id) == Some(counter)
    ensures CircleElement(m, counter).shape.Circle?
  {
    IdCounterOfMakeId(m.name, counter);
  }

  lemma CircleElementFields(m: CircleMatch, counter: nat)
    requires CircleCaptured(m)
    ensures var e := CircleElement(m, counter);
      && StartsWith(e.id, Lower(m.name) + "_")
      && e.zIndex == CircleZ && e.visible && e.opacity == UnitFloat
      && e.x == ParseDigits(m.x) && e.y == ParseDigits(m.y) && e.fillColor == HexColor(m.color)
  {
    var e := CircleElement(m, counter);
    assert e.id == Lower(m.name) + "_" + NatToString(counter);
    assert e.id[..|Lower(m.name) + "_"|] == Lower(m.name) + "_";
  }

  lemma RectElementId(m: RectMatch, counter: nat)
    requires RectCaptured(m)
    ensures IdCounter(RectElement(m, counter).id) == Some(counter)
    ensures RectElement(m, counter).shape.Rect?
  {
    IdCounterOfMakeId(m.name, counter);
  }

  lemma RectElementFields(m: RectMatch, counter: nat)
    requires RectCaptured(m)
    ensures var e := RectElement(m, counter);
      && StartsWith(e.id, Lower(m.name) + "_")
      && e.zIndex == RectZ && e.visible && e.opacity == UnitFloat
      && e.x == ParseDigits(m.x) && e.y == ParseDigits(m.y) && e.fillColor == HexColor(m.color)
  {
    var e := RectElement(m, counter);
    assert e.id == Lower(m.name) + "_" + NatToString(counter);
    assert e.id[..|Lower(m.name) + "_"|] == Lower(m.name) + "_";
  }

  /** Element `i` of a built document is numbered `i + 1` and has the shape of its group. */
  lemma BuiltElementKind(
    screen: Option<ScreenMatch>, texts: seq<TextMatch>, circles: seq<CircleMatch>, rects: seq<RectMatch>,
    device: Option<string>, now: string, i: nat)
    requires AllCaptured(screen, texts, circles, rects)
    requires BuildDocument(screen, texts, circles, rects, device, now).Ok?
    requires i < |texts| + |circles| + |rects|
    ensures var e := BuildDocument(screen, texts, circles, rects, device, now).value.elements[i];
      && IdCounter(e.id) == Some(i + 1)
      && (e.shape.Text? <==> i < |texts|)
      && (e.shape.Circle? <==> |texts| <= i < |texts| + |circles|)
      && (e.shape.Rect? <==> |texts| + |circles| <= i)
  {
    BuiltElementAt(screen, texts, circles, rects, device, now, i);
    GroupElementKind(BuildDocument(screen, texts, circles, rects, device, now).value.elements[i], texts, circles, rects, i);
  }

  lemma GroupElementKind(e: Element, texts: seq<TextMatch>, circles: seq<CircleMatch>, rects: seq<RectMatch>, i: nat)
    requires AllCaptured(None, texts, circles, rects)
    requires i < |texts| + |circles| + |rects|
    requires i < |texts| ==> e == TextElement(texts[i], i + 1)
    requires |texts| <= i < |texts| + |circles| ==> e == CircleElement(circles[i - |texts|], i + 1)
    requires |texts| + |circles| <= i ==> e == RectElement(rects[i - |texts| - |circles|], i + 1)
    ensures IdCounter(e.id) == Some(i + 1)
    ensures e.shape.Text? <==> i < |texts|
    ensures e.shape.Circle? <==> |texts| <= i < |texts| + |circles|
    ensures e.shape.Rect? <==> |texts| + |circles| <= i
  {
    var n, m := |texts|, |circles|;
    if i < n {
      TextKind(e, texts[i], i + 1);
    } else if i < n + m {
      CircleKind(e, circles[i - n], i + 1);
    } else {
      RectKind(e, rects[i - n - m], i + 1);
    }
    ShapeByGroup(e.shape, i, n, m);
  }

  /** Which of the three shapes an element has decides its group. */
  lemma ShapeByGroup(s: Shape, i: nat, n: nat, m: nat)
    requires i < n ==> s.Text?
    requires n <= i < n + m ==> s.Circle?
    requires n + m <= i ==> s.Rect?
    ensures s.Text? <==> i < n
    ensures s.Circle? <==> n <= i < n + m
    ensures s.Rect? <==> n + m <= i
  {
  }

  lemma TextKind(e: Element, m: TextMatch, counter: nat)
    requires TextCaptured(m) && e == TextElement(m, counter)
    ensures IdCounter(e.id) == Some(counter) && e.shape.Text?
  {
    TextElementId(m, counter);
  }

  lemma CircleKind(e: Element, m: CircleMatch, counter: nat)
    requires CircleCaptured(m) && e == CircleElement(m, counter)
    ensures IdCounter(e.id) == Some(counter) && e.shape.Circle?
  {
    CircleElementId(m, counter);
  }

  lemma RectKind(e: Element, m: RectMatch, counter: nat)
    requires RectCaptured(m) && e == RectElement(m, counter)
    ensures IdCounter(e.id) == Some(counter) && e.shape.Rect?
  {
    RectElementId(m, counter);
  }

  /** The elements come in three consecutive groups, text, circle and
      rectangle, and element `i` carries the counter `i + 1` in its id. */
  lemma BuildLayout(
    screen: Option<ScreenMatch>, texts: seq<TextMatch>, circles: seq<CircleMatch>, rects: seq<RectMatch>,
    device: Option<string>, now: string)
    requires AllCaptured(screen, texts, circles, rects)
    ensures var r := BuildDocument(screen, texts, circles, rects, device, now);
      r.Ok? ==> forall i :: 0 <= i < |r.value.elements| ==>
        && IdCounter(r.value.elements[i].id) == Some(i + 1)
        && (r.value.elements[i].shape.Text? <==> i < |texts|)
        && (r.value.elements[i].shape.Circle? <==> |texts| <= i < |texts| + |circles|)
        && (r.value.elements[i].shape.Rect? <==> |texts| + |circles| <= i)
  {
    var r := BuildDocument(screen, texts, circles, rects, device, now);
    if r.Ok? {
      forall i | 0 <= i < |r.value.elements|
        ensures IdCounter(r.value.elements[i].id) == Some(i + 1)
        ensures r.value.elements[i].shape.Text? <==> i < |texts|
        ensures r.value.elements[i].shape.Circle? <==> |texts| <= i < |texts| + |circles|
        ensures r.value.elements[i].shape.Rect? <==> |texts| + |circles| <= i
      {
        BuiltElementKind(screen, texts, circles, rects, device, now, i);
      }
    }
  }

  /** No two elements share an id, even when names repeat: the counter at
      the end of each id tells them apart. */
  lemma BuildIdsDistinct(
    screen: Option<ScreenMatch>, texts: seq<TextMatch>, circles: seq<CircleMatch>, rects: seq<RectMatch>,
    device: Option<string>, now: string)
    requires AllCaptured(screen, texts, circles, rects)
    ensures var r := BuildDocument(screen, texts, circles, rects, device, now);
      r.Ok? ==> forall i, j :: 0 <= i < j < |r.value.elements| ==>
        r.value.elements[i].id != r.value.elements[j].id
  {
    BuildLayout(screen, texts, circles, rects, device, now);
  }

  /** Fixed per-type attributes: z-index 10 for text, 5 for circles, 8 for
      rectangles; every element is visible with opacity 1.0; text is anchored
      in the middle. */
  lemma BuildFixedAttributes(
    screen: Option<ScreenMatch>, texts: seq<TextMatch>, circles: seq<CircleMatch>, rects: seq<RectMatch>,
    device: Option<string>, now: string)
    requires AllCaptured(screen, texts, circles, rects)
    ensures var r := BuildDocument(screen, texts, circles, rects, device, now);
      r.Ok? ==> forall e :: e in r.value.elements ==>
        && e.visible
        && e.opacity == "1.0"
        && (e.shape.Text? ==> e.zIndex == 10 && e.shape.textAnchor == "middle")
        && (e.shape.Circle? ==> e.zIndex == 5)
        && (e.shape.Rect? ==> e.zIndex == 8)
  {
    var r := BuildDocument(screen, texts, circles, rects, device, now);
    if r.Ok? {
      var es := r.value.elements;
      forall e | e in es
        ensures e.visible && e.opacity == "1.0"
        ensures e.shape.Text? ==> e.zIndex == 10 && e.shape.textAnchor == "middle"
        ensures e.shape.Circle? ==> e.zIndex == 5
        ensures e.shape.Rect? ==> e.zIndex == 8
      {
        var i :| 0 <= i < |es| && es[i] == e;
        BuiltElementAt(screen, texts, circles, rects, device, now, i);
      }
    }
  }

  /** What a text element takes from its match: the id from the lower-cased
      name, the content verbatim, the lower-cased font as family, the size
      from the font table, bold exactly when "LARGE" occurs in the font token,
      the normalised colour and the parsed position. */
  lemma BuildTextFields(
    screen: Option<ScreenMatch>, texts: seq<TextMatch>, circles: seq<CircleMatch>, rects: seq<RectMatch>,
    device: Option<string>, now: string, i: nat)
    requires AllCaptured(screen, texts, circles, rects)
    requires i < |texts|
    ensures var r := BuildDocument(screen, texts, circles, rects, device, now);
      r.Ok? ==>
        var e := r.value.elements[i];
        && e.id == Lower(texts[i].name) + "_" + NatToString(i + 1)
        && e.x == ParseDigits(texts[i].x) && e.y == ParseDigits(texts[i].y)
        && e.shape.Text?
        && e.shape.textContent == texts[i].content
        && e.shape.fontFamily == Lower(texts[i].font)
        && e.shape.fontSize == FontSize(texts[i].font)
        && (e.shape.fontWeight == "bold" <==> exists k :: OccursAt(texts[i].font, "LARGE", k))
        && (e.shape.fontWeight == "bold" || e.shape.fontWeight == "normal")
        && e.fillColor == HexColor(texts[i].color)
  {
  }

  /** What a circle element takes from its match: the id from the lower-cased
      name and the shared counter, the radius token as matched (one `float()`
      accepts), the parsed position and the converted colour. */
  lemma BuildCircleFields(
    screen: Option<ScreenMatch>, texts: seq<TextMatch>, circles: seq<CircleMatch>, rects: seq<RectMatch>,
    device: Option<string>, now: string, i: nat)
    requires AllCaptured(screen, texts, circles, rects)
    requires |texts| <= i < |texts| + |circles|
    ensures var r := BuildDocument(screen, texts, circles, rects, device, now);
      r.Ok? ==>
        var e, c := r.value.elements[i], circles[i - |texts|];
        && e.id == Lower(c.name) + "_" + NatToString(i + 1)
        && e.x == ParseDigits(c.x) && e.y == ParseDigits(c.y)
        && e.shape == Circle(c.size)
        && FloatParses(c.size)
        && e.fillColor == HexColor(c.color)
  {
    var r := BuildDocument(screen, texts, circles, rects, device, now);
    if r.Ok? {
      BuiltElementAt(screen, texts, circles, rects, device, now, i);
    }
  }

  /** What a rectangle element takes from its match: the id from the
      lower-cased name and the shared counter, the parsed width, height and
      position, and the converted colour. */
  lemma BuildRectFields(
    screen: Option<ScreenMatch>, texts: seq<TextMatch>, circles: seq<CircleMatch>, rects: seq<RectMatch>,
    device: Option<string>, now: string, i: nat)
    requires AllCaptured(screen, texts, circles, rects)
    requires |texts| + |circles| <= i < |texts| + |circles| + |rects|
    ensures var r := BuildDocument(screen, texts, circles, rects, device, now);
      r.Ok? ==>
        var e, q := r.value.elements[i], rects[i - |texts| - |circles|];
        && e.id == Lower(q.name) + "_" + NatToString(i + 1)
        && e.x == ParseDigits(q.x) && e.y == ParseDigits(q.y)
        && e.shape == Rect(ParseDigits(q.width), ParseDigits(q.height))
        && e.fillColor == HexColor(q.color)
  {
    var r := BuildDocument(screen, texts, circles, rects, device, now);
    if r.Ok? {
      BuiltElementAt(screen, texts, circles, rects, device, now, i);
    }
  }
}
