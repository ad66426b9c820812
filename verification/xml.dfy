/** The XML projection (`_generate_xml`): a fixed header, one `<element>`
    block per element in stable ascending z-index order, and the closing
    lines, joined with newlines. Values are inserted verbatim, without XML
    escaping. */
module Xml {

  import opened Strings
  import opened Decimal
  import opened Lines
  import opened UiState
  import opened ZOrder

  const Declaration := "<?xml version=\"1.0\" encoding=\"UTF-8\"?>"
  const RootClose := "</garmin-ui-state>"
  const ElementsClose := "  </elements>"
  const ElementClose := "    </element>"
  /** How every element block starts, and no other line does. */
  const OpenPrefix := "    <element id=\""

  /** `str(b).lower()`. */
  function BoolText(b: bool): (r: string)
    ensures r == "true" || r == "false"
    ensures r == "true" <==> b
  {
    if b then "true" else "false"
  }

  const Indent4 := "    "
  const Indent6 := "      "

  /** `<name>value</name>`. */
  function Tagged(name: string, value: string): string {
    "<" + name + ">" + value + "</" + name + ">"
  }

  /** The lines before the first element block. */
  function HeaderLines(d: Document): (r: seq<string>)
    ensures |r| == 17
    ensures r[0] == Declaration && r[1] == RootOpen(d.version) && r[16] == "  <elements>"
    ensures r[2..10] == MetadataLines(d.metadata) && r[10..16] == ScreenLines(d.screen)
  {
    [Declaration, RootOpen(d.version)] + MetadataLines(d.metadata) + ScreenLines(d.screen) + ["  <elements>"]
  }

  function MetadataLines(m: Metadata): seq<string> {
    [ "  <metadata>",
      Indent4 + Tagged("app-name", m.appName),
      Indent4 + Tagged("device-model", m.deviceModel),
      Indent4 + Tagged("screen-width", IntToString(m.screenWidth)),
      Indent4 + Tagged("screen-height", IntToString(m.screenHeight)),
      Indent4 + Tagged("timestamp", m.timestamp),
      Indent4 + Tagged("capture-source", m.captureSource),
      "  </metadata>" ]
  }

  function ScreenLines(s: Screen): seq<string> {
    [ "  <screen>",
      Indent4 + Tagged("background-color", s.backgroundColor),
      Indent4 + Tagged("scale-factor", s.scaleFactor),
      Indent4 + Tagged("center-x", IntToString(s.centerX)),
      Indent4 + Tagged("center-y", IntToString(s.centerY)),
      "  </screen>" ]
  }

  function RootOpen(version: string): string {
    "<garmin-ui-state version=\"" + version + "\">"
  }

  function FooterLines(): seq<string> {
    [ElementsClose, RootClose]
  }

  function OpenLine(e: Element): string {
    OpenPrefix + e.id + "\" type=\"" + TypeName(e.shape) + "\">"
  }

  function PositionLine(e: Element): string {
    Indent6 + ("<position x=\"" + IntToString(e.x) + "\" y=\"" + IntToString(e.y) + "\"/>")
  }

  /** The lines only an element of this type has. */
  function ShapeLines(s: Shape): (r: seq<string>)
    ensures |r| == if s.Text? then 5 else 1
    ensures forall i :: 0 <= i < |r| ==> StartsWith(r[i], Indent6)
  {
    match s
    case Text(content, family, size, weight, anchor) =>
      [ Indent6 + Tagged("text-content", content),
        Indent6 + Tagged("font-family", family),
        Indent6 + Tagged("font-size", IntToString(size)),
        Indent6 + Tagged("font-weight", weight),
        Indent6 + Tagged("text-anchor", anchor) ]
    case Circle(radius) =>
      [ Indent6 + Tagged("radius", radius) ]
    case Rect(width, height) =>
      [ Indent6 + ("<dimensions width=\"" + IntToString(width) + "\" height=\"" + IntToString(height) + "\"/>") ]
  }

  /** The four lines every element block ends with before its closing tag. */
  function CommonLines(e: Element): (r: seq<string>)
    ensures |r| == 4
    ensures forall i :: 0 <= i < |r| ==> StartsWith(r[i], Indent6)
  {
    [ Indent6 + Tagged("fill-color", e.fillColor),
      Indent6 + Tagged("z-index", IntToString(e.zIndex)),
      Indent6 + Tagged("visible", BoolText(e.visible)),
      Indent6 + Tagged("opacity", e.opacity) ]
  }

  /** One element block: the opening line, its position, five lines for a
      text element or one for a circle or rectangle, the four common lines
      and the closing tag. */
  function ElementLines(e: Element): (r: seq<string>)
    ensures |r| == if e.shape.Text? then 12 else 8
    ensures r[0] == OpenLine(e) && r[|r| - 1] == ElementClose
    ensures r[|r| - 5..|r| - 1] == CommonLines(e)
  {
    [OpenLine(e), PositionLine(e)] + ShapeLines(e.shape) + CommonLines(e) + [ElementClose]
  }

  function BlockLines(es: seq<Element>): seq<string> {
    if |es| == 0 then [] else ElementLines(es[0]) + BlockLines(es[1..])
  }

  /** The lines `_generate_xml` joins: header, the blocks of the elements
      sorted by z-index, footer. */
  function XmlLines(d: Document): (r: seq<string>)
    ensures |r| >= 19
    ensures r[0] == Declaration && r[|r| - 1] == RootClose
  {
    HeaderLines(d) + BlockLines(SortByZ(d.elements)) + FooterLines()
  }

  /** `_generate_xml(ui_state)`. */
  function GenerateXml(d: Document): (r: string)
    ensures StartsWith(r, Declaration)
    ensures |RootClose| <= |r| && r[|r| - |RootClose|..] == RootClose
  {
    var ls := XmlLines(d);
    JoinStartsWithFirst(ls);
    JoinEndsWithLast(ls);
    Join(ls)
  }

  predicate IsOpenLine(l: string) {
    StartsWith(l, OpenPrefix)
  }

  /** The element-opening lines among `ls`, in order. */
  function OpenLines(ls: seq<string>): seq<string> {
    if |ls| == 0 then [] else (if IsOpenLine(ls[0]) then [ls[0]] else []) + OpenLines(ls[1..])
  }

  /** The opening lines of the given elements, in order. */
  function OpenLinesOf(es: seq<Element>): (r: seq<string>)
    ensures |r| == |es|
  {
    if |es| == 0 then [] else [OpenLine(es[0])] + OpenLinesOf(es[1..])
  }

  lemma {:induction false} OpenLinesConcat(a: seq<string>, b: seq<string>)
    ensures OpenLines(a + b) == OpenLines(a) + OpenLines(b)
  {
    if |a| == 0 {
      assert a + b == b;
    } else {
      assert (a + b)[1..] == a[1..] + b;
      OpenLinesConcat(a[1..], b);
    }
  }

  /** A line that differs from the opening prefix at one of the prefix's
      positions is not an opening line. */
  lemma NotOpenAt(l: string, i: nat)
    requires i < |l| && i < |OpenPrefix| && l[i] != OpenPrefix[i]
    ensures !IsOpenLine(l)
  {
  }

  /** Lines indented by six spaces never open an element. */
  lemma DeepLineNotOpen(rest: string)
    ensures !IsOpenLine(Indent6 + rest)
  {
    NotOpenAt(Indent6 + rest, 4);
  }

  /** A four-space-indented tag whose name does not start with 'e' does not
      open an element. */
  lemma ShallowTagNotOpen(name: string, value: string)
    requires |name| > 0 && name[0] != 'e'
    ensures !IsOpenLine(Indent4 + Tagged(name, value))
  {
    var l := Indent4 + Tagged(name, value);
    assert Tagged(name, value)[1] == name[0];
    assert l[5] == name[0];
    NotOpenAt(l, 5);
  }

  lemma {:induction false} NoOpenLines(ls: seq<string>)
    requires forall i :: 0 <= i < |ls| ==> !IsOpenLine(ls[i])
    ensures OpenLines(ls) == []
  {
    if |ls| > 0 {
      NoOpenLines(ls[1..]);
    }
  }

  lemma MetadataHasNoOpenLine(m: Metadata)
    ensures OpenLines(MetadataLines(m)) == []
  {
    NotOpenAt("  <metadata>", 2);
    NotOpenAt("  </metadata>", 2);
    ShallowTagNotOpen("app-name", m.appName);
    ShallowTagNotOpen("device-model", m.deviceModel);
    ShallowTagNotOpen("screen-width", IntToString(m.screenWidth));
    ShallowTagNotOpen("screen-height", IntToString(m.screenHeight));
    ShallowTagNotOpen("timestamp", m.timestamp);
    ShallowTagNotOpen("capture-source", m.captureSource);
    NoOpenLines(MetadataLines(m));
  }

  lemma ScreenHasNoOpenLine(s: Screen)
    ensures OpenLines(ScreenLines(s)) == []
  {
    NotOpenAt("  <screen>", 2);
    NotOpenAt("  </screen>", 2);
    ShallowTagNotOpen("background-color", s.backgroundColor);
    ShallowTagNotOpen("scale-factor", s.scaleFactor);
    ShallowTagNotOpen("center-x", IntToString(s.centerX));
    ShallowTagNotOpen("center-y", IntToString(s.centerY));
    NoOpenLines(ScreenLines(s));
  }

  lemma TopHasNoOpenLine(version: string)
    ensures OpenLines([Declaration, RootOpen(version)]) == []
    ensures OpenLines(["  <elements>"]) == []
  {
    NotOpenAt(Declaration, 0);
    NotOpenAt(RootOpen(version), 0);
    NoOpenLines([Declaration, RootOpen(version)]);
    NotOpenAt("  <elements>", 2);
    NoOpenLines(["  <elements>"]);
  }

  lemma HeaderHasNoOpenLine(d: Document)
    ensures OpenLines(HeaderLines(d)) == []
  {
    var top, last := [Declaration, RootOpen(d.version)], ["  <elements>"];
    var meta, screen := MetadataLines(d.metadata), ScreenLines(d.screen);
    TopHasNoOpenLine(d.version);
    MetadataHasNoOpenLine(d.metadata);
    ScreenHasNoOpenLine(d.screen);
    OpenLinesConcat(top, meta);
    OpenLinesConcat(top + meta, screen);
    OpenLinesConcat(top + meta + screen, last);
  }

  lemma ShapeHasNoOpenLine(s: Shape)
    ensures OpenLines(ShapeLines(s)) == []
  {
    var ls := ShapeLines(s);
    forall i | 0 <= i < |ls| ensures !IsOpenLine(ls[i]) {
      DeepLineNotOpen(ls[i][6..]);
      assert ls[i] == Indent6 + ls[i][6..];
    }
    NoOpenLines(ls);
  }

  lemma CommonHasNoOpenLine(e: Element)
    ensures OpenLines(CommonLines(e)) == []
  {
    var ls := CommonLines(e);
    forall i | 0 <= i < |ls| ensures !IsOpenLine(ls[i]) {
      DeepLineNotOpen(ls[i][6..]);
      assert ls[i] == Indent6 + ls[i][6..];
    }
    NoOpenLines(ls);
  }

  /** Only the first line of a block opens an element. */
  lemma ElementHasOneOpenLine(e: Element)
    ensures OpenLines(ElementLines(e)) == [OpenLine(e)]
  {
    var head := [OpenLine(e), PositionLine(e)];
    assert IsOpenLine(OpenLine(e));
    DeepLineNotOpen(PositionLine(e)[6..]);
    assert PositionLine(e) == Indent6 + PositionLine(e)[6..];
    NoOpenLines([PositionLine(e)]);
    assert OpenLines(head) == [OpenLine(e)] by {
      assert head[1..] == [PositionLine(e)];
    }
    ShapeHasNoOpenLine(e.shape);
    CommonHasNoOpenLine(e);
    NotOpenAt(ElementClose, 5);
    assert [ElementClose][1..] == [];
    OpenLinesConcat(head, ShapeLines(e.shape));
    OpenLinesConcat(head + ShapeLines(e.shape), CommonLines(e));
    OpenLinesConcat(head + ShapeLines(e.shape) + CommonLines(e), [ElementClose]);
  }

  lemma {:induction false} BlockOpenLines(es: seq<Element>)
    ensures OpenLines(BlockLines(es)) == OpenLinesOf(es)
  {
    if |es| > 0 {
      OpenLinesConcat(ElementLines(es[0]), BlockLines(es[1..]));
      ElementHasOneOpenLine(es[0]);
      BlockOpenLines(es[1..]);
    }
  }

  lemma FooterHasNoOpenLine()
    ensures OpenLines(FooterLines()) == []
  {
    NotOpenAt(ElementsClose, 2);
    NotOpenAt(RootClose, 0);
    NoOpenLines(FooterLines());
  }

  /** The XML holds exactly one opening `<element id=.. type=..>` line per
      element, and these lines follow the stable z-index order. */
  lemma XmlElementOrder(d: Document)
    ensures OpenLines(XmlLines(d)) == OpenLinesOf(SortByZ(d.elements))
    ensures |OpenLines(XmlLines(d))| == |d.elements|
  {
    var sorted := SortByZ(d.elements);
    OpenLinesConcat(HeaderLines(d) + BlockLines(sorted), FooterLines());
    OpenLinesConcat(HeaderLines(d), BlockLines(sorted));
    HeaderHasNoOpenLine(d);
    FooterHasNoOpenLine();
    BlockOpenLines(sorted);
    assert |sorted| == |d.elements| by {
      assert |multiset(sorted)| == |multiset(d.elements)|;
    }
  }

  /** Text content goes into its line verbatim: no escaping, no trimming. */
  lemma TextContentVerbatim(e: Element)
    requires e.shape.Text?
    ensures ElementLines(e)[2] == Indent6 + Tagged("text-content", e.shape.textContent)
  {
    var head := [OpenLine(e), PositionLine(e)];
    var shape := ShapeLines(e.shape);
    assert ElementLines(e) == head + (shape + (CommonLines(e) + [ElementClose]));
    assert ElementLines(e)[2] == shape[0];
  }

  predicate OneLine(s: string) {
    Newline !in s
  }

  predicate AllOneLine(ls: seq<string>) {
    forall i :: 0 <= i < |ls| ==> OneLine(ls[i])
  }

  /** No string field of the element holds a newline. */
  predicate ElementOneLine(e: Element) {
    OneLine(e.id) && OneLine(e.fillColor) && OneLine(e.opacity) && ShapeOneLine(e.shape)
  }

  /** No string field of the document holds a newline. */
  predicate DocumentOneLine(d: Document) {
    && OneLine(d.version)
    && OneLine(d.metadata.appName) && OneLine(d.metadata.deviceModel)
    && OneLine(d.metadata.timestamp) && OneLine(d.metadata.captureSource)
    && OneLine(d.screen.backgroundColor) && OneLine(d.screen.scaleFactor)
    && forall e :: e in d.elements ==> ElementOneLine(e)
  }

  lemma IntToStringOneLine(i: int)
    ensures OneLine(IntToString(i))
  {
    var s := IntToString(i);
    forall k | 0 <= k < |s| ensures s[k] != Newline {
      if i < 0 && k > 0 {
        assert s[k] == NatToString(-i)[k - 1];
      }
    }
  }

  lemma TaggedOneLine(name: string, value: string)
    requires OneLine(name) && OneLine(value)
    ensures OneLine(Tagged(name, value))
  {
  }

  /** An indented tag line is free of newlines when its value is. */
  lemma TagLineOneLine(indent: string, name: string, value: string)
    requires OneLine(indent) && OneLine(name) && OneLine(value)
    ensures OneLine(indent + Tagged(name, value))
  {
    TaggedOneLine(name, value);
  }

  /** The fixed lines hold no newline. */
  lemma FixedLinesOneLine()
    ensures OneLine("  <metadata>") && OneLine("  </metadata>")
    ensures OneLine("  <screen>") && OneLine("  </screen>") && OneLine("  <elements>")
    ensures OneLine(Declaration) && OneLine(ElementClose) && OneLine(ElementsClose) && OneLine(RootClose)
  {
    SectionLinesOneLine();
    FrameLinesOneLine();
  }

  lemma SectionLinesOneLine()
    ensures OneLine("  <metadata>") && OneLine("  </metadata>")
    ensures OneLine("  <screen>") && OneLine("  </screen>") && OneLine("  <elements>")
  {
  }

  lemma FrameLinesOneLine()
    ensures OneLine(Declaration) && OneLine(ElementClose) && OneLine(ElementsClose) && OneLine(RootClose)
  {
  }

  lemma MetadataOneLine(m: Metadata)
    requires OneLine(m.appName) && OneLine(m.deviceModel) && OneLine(m.timestamp) && OneLine(m.captureSource)
    ensures AllOneLine(MetadataLines(m))
  {
    FixedLinesOneLine();
    IntToStringOneLine(m.screenWidth);
    IntToStringOneLine(m.screenHeight);
    TagLineOneLine(Indent4, "app-name", m.appName);
    TagLineOneLine(Indent4, "device-model", m.deviceModel);
    TagLineOneLine(Indent4, "screen-width", IntToString(m.screenWidth));
    TagLineOneLine(Indent4, "screen-height", IntToString(m.screenHeight));
    TagLineOneLine(Indent4, "timestamp", m.timestamp);
    TagLineOneLine(Indent4, "capture-source", m.captureSource);
  }

  lemma ScreenOneLine(sc: Screen)
    requires OneLine(sc.backgroundColor) && OneLine(sc.scaleFactor)
    ensures AllOneLine(ScreenLines(sc))
  {
    FixedLinesOneLine();
    IntToStringOneLine(sc.centerX);
    IntToStringOneLine(sc.centerY);
    TagLineOneLine(Indent4, "background-color", sc.backgroundColor);
    TagLineOneLine(Indent4, "scale-factor", sc.scaleFactor);
    TagLineOneLine(Indent4, "center-x", IntToString(sc.centerX));
    TagLineOneLine(Indent4, "center-y", IntToString(sc.centerY));
  }

  lemma HeaderOneLine(d: Document)
    requires DocumentOneLine(d)
    ensures AllOneLine(HeaderLines(d))
  {
    var ls := HeaderLines(d);
    FixedLinesOneLine();
    MetadataOneLine(d.metadata);
    ScreenOneLine(d.screen);
    assert OneLine(RootOpen(d.version));
    forall i | 0 <= i < |ls| ensures OneLine(ls[i]) {
      if 2 <= i < 10 {
        assert ls[i] == MetadataLines(d.metadata)[i - 2];
      } else if 10 <= i < 16 {
        assert ls[i] == ScreenLines(d.screen)[i - 10];
      }
    }
  }

  /** No string field of the shape holds a newline. */
  predicate ShapeOneLine(s: Shape) {
    match s
    case Text(content, family, _, weight, anchor) =>
      OneLine(content) && OneLine(family) && OneLine(weight) && OneLine(anchor)
    case Circle(radius) => OneLine(radius)
    case Rect(_, _) => true
  }

  lemma TextLinesOneLine(s: Shape)
    requires s.Text? && ShapeOneLine(s)
    ensures AllOneLine(ShapeLines(s))
  {
    IntToStringOneLine(s.fontSize);
    TagLineOneLine(Indent6, "text-content", s.textContent);
    TagLineOneLine(Indent6, "font-family", s.fontFamily);
    TagLineOneLine(Indent6, "font-size", IntToString(s.fontSize));
    TagLineOneLine(Indent6, "font-weight", s.fontWeight);
    TagLineOneLine(Indent6, "text-anchor", s.textAnchor);
  }

  lemma RectLineOneLine(width: int, height: int)
    ensures OneLine(Indent6 + ("<dimensions width=\"" + IntToString(width) + "\" height=\"" + IntToString(height) + "\"/>"))
  {
    IntToStringOneLine(width);
    IntToStringOneLine(height);
  }

  lemma ShapeLinesOneLine(s: Shape)
    requires ShapeOneLine(s)
    ensures AllOneLine(ShapeLines(s))
  {
    match s
    case Text(_, _, _, _, _) =>
      TextLinesOneLine(s);
    case Circle(radius) =>
      TagLineOneLine(Indent6, "radius", radius);
    case Rect(width, height) =>
      RectLineOneLine(width, height);
  }

  lemma CommonOneLine(e: Element)
    requires OneLine(e.fillColor) && OneLine(e.opacity)
    ensures AllOneLine(CommonLines(e))
  {
    IntToStringOneLine(e.zIndex);
    TagLineOneLine(Indent6, "fill-color", e.fillColor);
    TagLineOneLine(Indent6, "z-index", IntToString(e.zIndex));
    TagLineOneLine(Indent6, "visible", BoolText(e.visible));
    TagLineOneLine(Indent6, "opacity", e.opacity);
  }

  lemma HeadOneLine(e: Element)
    requires OneLine(e.id)
    ensures OneLine(OpenLine(e)) && OneLine(PositionLine(e))
  {
    IntToStringOneLine(e.x);
    IntToStringOneLine(e.y);
  }

  lemma ElementOneLines(e: Element)
    requires ElementOneLine(e)
    ensures AllOneLine(ElementLines(e))
  {
    ShapeLinesOneLine(e.shape);
    CommonOneLine(e);
    HeadOneLine(e);
    FixedLinesOneLine();
    var head := [OpenLine(e), PositionLine(e)];
    AllOneLineConcat(head, ShapeLines(e.shape));
    AllOneLineConcat(head + ShapeLines(e.shape), CommonLines(e));
    AllOneLineConcat(head + ShapeLines(e.shape) + CommonLines(e), [ElementClose]);
  }

  lemma AllOneLineConcat(a: seq<string>, b: seq<string>)
    requires AllOneLine(a) && AllOneLine(b)
    ensures AllOneLine(a + b)
  {
    forall i | 0 <= i < |a + b| ensures OneLine((a + b)[i]) {
      if i >= |a| {
        assert (a + b)[i] == b[i - |a|];
      }
    }
  }

  lemma {:induction false} BlockOneLine(es: seq<Element>)
    requires forall i :: 0 <= i < |es| ==> ElementOneLine(es[i])
    ensures AllOneLine(BlockLines(es))
  {
    if |es| > 0 {
      ElementOneLines(es[0]);
      BlockOneLine(es[1..]);
    }
  }

  /** Every line of the XML of a document without newlines in its fields is
      itself free of newlines. */
  lemma XmlLinesOneLine(d: Document)
    requires DocumentOneLine(d)
    ensures AllOneLine(XmlLines(d))
  {
    var sorted := SortByZ(d.elements);
    SortedOneLine(d);
    HeaderOneLine(d);
    BlockOneLine(sorted);
    FixedLinesOneLine();
    AllOneLineConcat(HeaderLines(d), BlockLines(sorted));
    AllOneLineConcat(HeaderLines(d) + BlockLines(sorted), FooterLines());
  }

  lemma SortedOneLine(d: Document)
    requires DocumentOneLine(d)
    ensures forall i :: 0 <= i < |SortByZ(d.elements)| ==> ElementOneLine(SortByZ(d.elements)[i])
  {
    var sorted := SortByZ(d.elements);
    forall i | 0 <= i < |sorted| ensures ElementOneLine(sorted[i]) {
      assert sorted[i] in multiset(d.elements);
    }
  }

  /** Splitting the XML text at newlines gives back its lines, so the text
      holds exactly one `<element ...>` line per element, in the stable
      z-index order, when no string field of the document holds a newline. */
  lemma XmlTextLines(d: Document)
    requires DocumentOneLine(d)
    ensures Split(GenerateXml(d)) == XmlLines(d)
    ensures OpenLines(Split(GenerateXml(d))) == OpenLinesOf(SortByZ(d.elements))
    ensures |OpenLines(Split(GenerateXml(d)))| == |d.elements|
  {
    XmlLinesOneLine(d);
    SplitJoin(XmlLines(d));
    XmlElementOrder(d);
  }

  /** Each line of each element's block is a line of the blocks. */
  lemma {:induction false} BlockContains(es: seq<Element>, k: nat, j: nat)
    requires k < |es| && j < |ElementLines(es[k])|
    ensures ElementLines(es[k])[j] in BlockLines(es)
  {
    var first, rest := ElementLines(es[0]), BlockLines(es[1..]);
    var line := ElementLines(es[k])[j];
    if k == 0 {
      InLeft(line, first, rest);
    } else {
      assert es[1..][k - 1] == es[k];
      BlockContains(es[1..], k - 1, j);
      InRight(line, first, rest);
    }
  }

  lemma InLeft(x: string, a: seq<string>, b: seq<string>)
    requires x in a
    ensures x in a + b
  {
    var i :| 0 <= i < |a| && a[i] == x;
    assert (a + b)[i] == x;
  }

  lemma InRight(x: string, a: seq<string>, b: seq<string>)
    requires x in b
    ensures x in a + b
  {
    var i :| 0 <= i < |b| && b[i] == x;
    assert (a + b)[|a| + i] == x;
  }

  /** A newline inside a text element's content breaks the round trip: the
      XML text then splits into lines other than the ones that were joined. */
  lemma NewlineInContentSplits(d: Document, e: Element)
    requires e in d.elements && e.shape.Text? && Newline in e.shape.textContent
    ensures Split(GenerateXml(d)) != XmlLines(d)
  {
    var line := ElementLines(e)[2];
    ContentLineHasNewline(e);
    XmlHasElementLine(d, e, 2);
    var pieces := Split(GenerateXml(d));
    assert forall l :: l in pieces ==> OneLine(l);
  }

  lemma ContentLineHasNewline(e: Element)
    requires e.shape.Text? && Newline in e.shape.textContent
    ensures !OneLine(ElementLines(e)[2])
  {
    TextContentVerbatim(e);
    var line := ElementLines(e)[2];
    var i :| 0 <= i < |e.shape.textContent| && e.shape.textContent[i] == Newline;
    assert line[20 + i] == Newline;
  }

  /** Each line of each element's block is a line of the XML. */
  lemma XmlHasElementLine(d: Document, e: Element, j: nat)
    requires e in d.elements && j < |ElementLines(e)|
    ensures ElementLines(e)[j] in XmlLines(d)
  {
    var sorted := SortByZ(d.elements);
    assert e in multiset(sorted);
    var k :| 0 <= k < |sorted| && sorted[k] == e;
    BlockContains(sorted, k, j);
    var blocks := BlockLines(sorted);
    assert XmlLines(d) == HeaderLines(d) + blocks + FooterLines();
  }
}
