/** The canonical UI-state document built from a debug log: metadata, screen
    descriptor, the ordered visual elements and the (always empty) state map.
    Floating-point fields are kept as the text they are rendered as. */
module UiState {

  datatype Metadata = Metadata(
    appName: string,
    deviceModel: string,
    screenWidth: int,
    screenHeight: int,
    timestamp: string,
    captureSource: string)

  datatype Screen = Screen(
    backgroundColor: string,
    scaleFactor: string,
    centerX: int,
    centerY: int)

  /** The type-specific part of an element. */
  datatype Shape =
    | Text(textContent: string, fontFamily: string, fontSize: int, fontWeight: string, textAnchor: string)
    | Circle(radius: string)
    | Rect(width: int, height: int)

  /** One visual primitive; `shape` carries the fields its type adds. */
  datatype Element = Element(
    id: string,
    shape: Shape,
    x: int,
    y: int,
    fillColor: string,
    zIndex: int,
    visible: bool,
    opacity: string)

  datatype Document = Document(
    version: string,
    metadata: Metadata,
    screen: Screen,
    elements: seq<Element>,
    state: map<string, string>)

  /** The `type` field of an element. */
  function TypeName(s: Shape): (r: string)
    ensures r == "text" || r == "circle" || r == "rect"
    ensures (r == "text" <==> s.Text?) && (r == "circle" <==> s.Circle?) && (r == "rect" <==> s.Rect?)
  {
    match s
    case Text(_, _, _, _, _) => "text"
    case Circle(_) => "circle"
    case Rect(_, _) => "rect"
  }
}
