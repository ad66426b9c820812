/** The capture pipeline end to end: the matches of a log become a document,
    and the document becomes the XML text. The stable z-index sort of the XML
    writer turns the builder's text-circle-rectangle grouping into
    circle-rectangle-text order. */
module Capture {

  import opened Results
  import opened Strings
  import opened Decimal
  import opened Colors
  import opened Fonts
  import opened UiState
  import opened Matches
  import opened Builder
  import opened ZOrder
  import opened Xml

  /** The XML text of a capture, or the error that stopped the build. */
  function CaptureXml(
    screen: Option<ScreenMatch>, texts: seq<TextMatch>, circles: seq<CircleMatch>, rects: seq<RectMatch>,
    device: Option<string>, now: string): (r: Result<string, BuildError>)
    requires AllCaptured(screen, texts, circles, rects)
    ensures r.Err? <==> exists i :: 0 <= i < |circles| && !FloatParses(circles[i].size)
    ensures r.Ok? ==> StartsWith(r.value, Declaration)
  {
    match BuildDocument(screen, texts, circles, rects, device, now)
    case Err(e) => Err(e)
    case Ok(d) => Ok(GenerateXml(d))
  }

  /** Every element of a group carries that group's z-index. */
  lemma BuiltGroupZ(
    screen: Option<ScreenMatch>, texts: seq<TextMatch>, circles: seq<CircleMatch>, rects: seq<RectMatch>,
    device: Option<string>, now: string)
    requires AllCaptured(screen, texts, circles, rects)
    requires BuildDocument(screen, texts, circles, rects, device, now).Ok?
    ensures var es := BuildDocument(screen, texts, circles, rects, device, now).value.elements;
      var n, m := |texts|, |circles|;
      && (forall i :: 0 <= i < n ==> es[i].zIndex == TextZ)
      && (forall i :: n <= i < n + m ==> es[i].zIndex == CircleZ)
      && (forall i :: n + m <= i < |es| ==> es[i].zIndex == RectZ)
  {
    var es := BuildDocument(screen, texts, circles, rects, device, now).value.elements;
    var n, m := |texts|, |circles|;
    forall i | 0 <= i < |es|
      ensures i < n ==> es[i].zIndex == TextZ
      ensures n <= i < n + m ==> es[i].zIndex == CircleZ
      ensures n + m <= i ==> es[i].zIndex == RectZ
    {
      BuiltElementAt(screen, texts, circles, rects, device, now, i);
    }
  }

  /** The XML lists the elements of a built document circles first, then
      rectangles, then text, each group still in match order: z-indexes
      5 < 8 < 10 and `sorted` keeps ties in place. */
  lemma BuiltXmlOrder(
    screen: Option<ScreenMatch>, texts: seq<TextMatch>, circles: seq<CircleMatch>, rects: seq<RectMatch>,
    device: Option<string>, now: string)
    requires AllCaptured(screen, texts, circles, rects)
    ensures var r := BuildDocument(screen, texts, circles, rects, device, now);
      r.Ok? ==>
        var es := r.value.elements;
        var n, m := |texts|, |circles|;
        && SortByZ(es) == es[n..n + m] + es[n + m..] + es[..n]
        && OpenLines(XmlLines(r.value)) == OpenLinesOf(es[n..n + m] + es[n + m..] + es[..n])
  {
    var r := BuildDocument(screen, texts, circles, rects, device, now);
    if r.Ok? {
      var es := r.value.elements;
      var n, m := |texts|, |circles|;
      BuiltGroupZ(screen, texts, circles, rects, device, now);
      assert es == es[..n] + es[n..n + m] + es[n + m..];
      SortThreeGroups(es[..n], es[n..n + m], es[n + m..], TextZ, CircleZ, RectZ);
      XmlElementOrder(r.value);
    }
  }

  /** The one element built from a 260x260 screen and one large red label. */
  lemma LabelElement(now: string)
    ensures var hi := TextMatch("Label", "\"Hi\"", "10", "20", "LARGE", "0xFF0000");
      var r := BuildDocument(Some(ScreenMatch("260", "260", "130", "130")), [hi], [], [], None, now);
      && r.Ok?
      && r.value.elements == [TextElement(hi, 1)]
      && TextElement(hi, 1) == Element(
        "label_1", Text("\"Hi\"", "large", 24, "bold", "middle"), 10, 20, "#FF0000", 10, true, "1.0")
  {
    var hi := TextMatch("Label", "\"Hi\"", "10", "20", "LARGE", "0xFF0000");
    var r := BuildDocument(Some(ScreenMatch("260", "260", "130", "130")), [hi], [], [], None, now);
    assert r.value.elements[0] == TextElement(hi, 1);
    LabelName();
    LabelFont();
    LabelColor();
    LabelPosition();
  }

  lemma LabelFont()
    ensures FontSize("LARGE") == 24 && FontWeight("LARGE") == "bold"
  {
    assert OccursAt("LARGE", "LARGE", 0);
  }

  lemma LabelPosition()
    ensures ParseDigits("10") == 10 && ParseDigits("20") == 20
  {
  }

  lemma LabelName()
    ensures MakeId("Label", 1) == "label_1"
    ensures Lower("LARGE") == "large"
  {
    assert Lower("Label") == "label";
    assert NatToString(1) == "1";
  }

  lemma LabelColorParts()
    ensures "0xFF0000" == GarminPrefix + "FF0000"
    ensures "#FF0000" == WebPrefix + "FF0000"
  {
  }

  lemma LabelColor()
    ensures HexColor("0xFF0000") == "#FF0000"
  {
    LabelColorParts();
    HexColorLong("FF0000");
  }

  /** A one-element document has one element block in its XML. */
  lemma SingleElementXml(d: Document)
    requires |d.elements| == 1
    ensures OpenLines(XmlLines(d)) == [OpenLine(d.elements[0])]
  {
    XmlElementOrder(d);
    var sorted := SortByZ(d.elements);
    assert |sorted| == |multiset(sorted)| == 1;
    assert sorted[0] in multiset(d.elements);
    assert sorted == d.elements;
    assert OpenLinesOf(sorted) == [OpenLine(sorted[0])] + OpenLinesOf([]);
  }

  /** The sixth line of a text element's block states its weight. */
  lemma WeightLine(e: Element)
    requires e.shape.Text?
    ensures ElementLines(e)[5] == Indent6 + Tagged("font-weight", e.shape.fontWeight)
  {
    var head := [OpenLine(e), PositionLine(e)];
    assert ElementLines(e) == head + (ShapeLines(e.shape) + (CommonLines(e) + [ElementClose]));
  }

  /** The XML of that capture has exactly one element block, for `label_1`,
      and its weight line says bold. */
  lemma LabelXml(now: string)
    ensures var hi := TextMatch("Label", "\"Hi\"", "10", "20", "LARGE", "0xFF0000");
      var r := BuildDocument(Some(ScreenMatch("260", "260", "130", "130")), [hi], [], [], None, now);
      && r.Ok?
      && |r.value.elements| == 1
      && OpenLines(XmlLines(r.value)) == [OpenLine(r.value.elements[0])]
      && r.value.elements[0].id == "label_1"
      && TypeName(r.value.elements[0].shape) == "text"
      && ElementLines(r.value.elements[0])[5] == Indent6 + Tagged("font-weight", "bold")
  {
    var hi := TextMatch("Label", "\"Hi\"", "10", "20", "LARGE", "0xFF0000");
    var r := BuildDocument(Some(ScreenMatch("260", "260", "130", "130")), [hi], [], [], None, now);
    LabelElement(now);
    WeightLine(r.value.elements[0]);
    SingleElementXml(r.value);
  }

  /** One circle whose size `float()` rejects fails the whole capture, with
      that token, whatever else the log holds. */
  lemma BadRadiusFails(texts: seq<TextMatch>, rects: seq<RectMatch>, now: string)
    requires AllCaptured(None, texts, [], rects)
    ensures var dot := CircleMatch("Dot", "x", "1", "2", "1.2.3", "0xFFFFFF");
      BuildDocument(None, texts, [dot], rects, None, now) == Err(InvalidRadius("1.2.3"))
  {
    var dot := CircleMatch("Dot", "x", "1", "2", "1.2.3", "0xFFFFFF");
    assert "1.2.3" == "1" + (['.'] + "2.3");
    FloatRejectsSecondPoint("1", "2.3");
    assert FirstInvalidSize([dot]) == 0;
  }
}
