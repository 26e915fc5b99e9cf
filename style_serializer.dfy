/**
  Writing the style records back out as KML `Style` elements
  (`styleDataToKml`). Each record becomes one text fragment, exactly as the
  template literals of the source spell it: a newline, two spaces of indent
  per level (a `Style` sits at level 3), colours re-encoded as `aabbggrr`
  with full opacity except a polygon's fill, numbers in their JavaScript
  text form (`show`, left abstract) and the flags as `1`/`0`.

  To say what the fragments MEAN, each is also given as an element tree and
  proved to be that tree pretty-printed; reading the tree back with the
  style reader shows which fields survive an export followed by an import.
*/
module StyleSerializer {
  import opened Wrappers
  import opened JsRuntime
  import opened KmlTree
  import opened ColorCodec
  import opened StyleRecords
  import opened StyleParser

  // ---------------------------------------------------------------------------
  // The fragments, as the templates write them

  /** The opening line of a `Style` element carrying its id. */
  function StyleOpen(id: string): string {
    "\n      <Style id=\"" + id + "\">"
  }

  /** The closing line of a `Style` element. */
  const StyleClose: string := "\n      </Style>"

  /** A point's `IconStyle`: its colour at full opacity, scale, heading and icon URL. */
  function IconStyleKml(p: PointStyle, show: Number -> string): string {
    "\n        <IconStyle>"
    + "\n          <color>" + ColorToKmlColor(p.iconColor, Num(1.0)) + "</color>"
    + "\n          <scale>" + show(p.iconScale) + "</scale>"
    + "\n          <heading>" + show(p.iconHeading) + "</heading>"
    + "\n          <Icon>"
    + "\n            <href>" + p.iconUrl + "</href>"
    + "\n          </Icon>"
    + "\n        </IconStyle>"
  }

  /** A point's `LabelStyle`: colour and scale when the label is on, a zero scale when it is off. */
  function LabelStyleKml(p: PointStyle, show: Number -> string): string {
    if p.labelEnabled then
      "\n        <LabelStyle>"
      + "\n          <color>" + ColorToKmlColor(p.labelColor, Num(1.0)) + "</color>"
      + "\n          <scale>" + show(p.labelScale) + "</scale>"
      + "\n        </LabelStyle>"
    else
      "\n        <LabelStyle>"
      + "\n          <scale>0</scale>"
      + "\n        </LabelStyle>"
  }

  /** A `LineStyle` (a line record's, or a polygon's outline): colour at full opacity and width. */
  function LineStyleKml(color: string, width: Number, show: Number -> string): string {
    "\n        <LineStyle>"
    + "\n          <color>" + ColorToKmlColor(color, Num(1.0)) + "</color>"
    + "\n          <width>" + show(width) + "</width>"
    + "\n        </LineStyle>"
  }

  /** `flag ? 1 : 0` in a template. */
  function FlagText(b: bool): string {
    if b then "1" else "0"
  }

  /** A polygon's `PolyStyle`: the fill colour with the fill opacity as alpha, and the two flags. */
  function PolyStyleKml(q: PolygonStyle): string {
    "\n        <PolyStyle>"
    + "\n          <color>" + ColorToKmlColor(q.fillColor, q.fillOpacity) + "</color>"
    + "\n          <fill>" + FlagText(q.polyFill) + "</fill>"
    + "\n          <outline>" + FlagText(q.polyOutline) + "</outline>"
    + "\n        </PolyStyle>"
  }

  /** A point record's fragment, the three appends of the loop body in order. */
  function PointKml(p: PointStyle, show: Number -> string): string {
    StyleOpen(p.id) + IconStyleKml(p, show) + LabelStyleKml(p, show) + StyleClose
  }

  /** A line record's fragment. */
  function LineKml(l: LineStyle, show: Number -> string): string {
    StyleOpen(l.id) + LineStyleKml(l.lineColor, l.lineWidth, show) + StyleClose
  }

  /** The outline part of a polygon's fragment: a `LineStyle` when outlined, nothing otherwise. */
  function OutlineKml(q: PolygonStyle, show: Number -> string): string {
    if q.polyOutline then LineStyleKml(q.lineColor, q.lineWidth, show) else ""
  }

  /** A polygon record's fragment, the three appends of the loop body in order. */
  function PolygonKml(q: PolygonStyle, show: Number -> string): string {
    StyleOpen(q.id) + PolyStyleKml(q) + OutlineKml(q, show) + StyleClose
  }

  /** The fragments of a run of records, in order (defined from the back, as `+=` appends). */
  function PointsKml(ps: seq<PointStyle>, show: Number -> string): string {
    if |ps| == 0 then "" else PointsKml(ps[..|ps| - 1], show) + PointKml(ps[|ps| - 1], show)
  }

  function LinesKml(ls: seq<LineStyle>, show: Number -> string): string {
    if |ls| == 0 then "" else LinesKml(ls[..|ls| - 1], show) + LineKml(ls[|ls| - 1], show)
  }

  function PolygonsKml(qs: seq<PolygonStyle>, show: Number -> string): string {
    if |qs| == 0 then "" else PolygonsKml(qs[..|qs| - 1], show) + PolygonKml(qs[|qs| - 1], show)
  }

  /** What `styleDataToKml` returns: all point fragments, then all line fragments, then all polygon fragments. */
  function StylesKml(points: seq<PointStyle>, lines: seq<LineStyle>, polygons: seq<PolygonStyle>, show: Number -> string): string {
    PointsKml(points, show) + LinesKml(lines, show) + PolygonsKml(polygons, show)
  }

  // ---------------------------------------------------------------------------
  // A pretty-printer for element trees

  /** Two spaces per level. */
  function Indent(depth: nat): (s: string)
    ensures |s| == 2 * depth
  {
    if depth == 0 then "" else Indent(depth - 1) + "  "
  }

  function OpenTag(tag: string, id: Option<string>): string {
    match id
    case None => "<" + tag + ">"
    case Some(v) => "<" + tag + " id=\"" + v + "\">"
  }

  function CloseTag(tag: string): string {
    "</" + tag + ">"
  }

  /** An element on a line of its own at `depth`: a leaf with its text inline, otherwise its children
      one level deeper and the closing tag on its own line. */
  function Render(e: Element, depth: nat): string
    decreases e, 1
  {
    "\n" + Indent(depth) + OpenTag(e.tag, e.id)
    + (if e.children == [] then e.text else RenderAll(e.children, depth + 1) + "\n" + Indent(depth))
    + CloseTag(e.tag)
  }

  function RenderAll(es: seq<Element>, depth: nat): string
    decreases es, 0
  {
    if |es| == 0 then "" else Render(es[0], depth) + RenderAll(es[1..], depth)
  }

  /** The `textContent` of an element printed at `depth` with these children:
      their texts with the layout whitespace between them. */
  function InnerText(children: seq<Element>, depth: nat): string
    decreases children
  {
    if |children| == 0 then "\n" + Indent(depth)
    else "\n" + Indent(depth + 1) + children[0].text + InnerText(children[1..], depth)
  }

  /** A text-only element. */
  function Leaf(tag: string, text: string): Element {
    Element(tag, None, [], text)
  }

  /** An element with children, as a parser builds it from its printed form at `depth`. */
  function Node(tag: string, id: Option<string>, children: seq<Element>, depth: nat): Element {
    Element(tag, id, children, InnerText(children, depth))
  }

  // ---------------------------------------------------------------------------
  // The trees the fragments print

  function IconStyleTree(p: PointStyle, show: Number -> string): Element {
    Node("IconStyle", None, [
      Leaf("color", ColorToKmlColor(p.iconColor, Num(1.0))),
      Leaf("scale", show(p.iconScale)),
      Leaf("heading", show(p.iconHeading)),
      Node("Icon", None, [Leaf("href", p.iconUrl)], 5)], 4)
  }

  function LabelStyleTree(p: PointStyle, show: Number -> string): Element {
    if p.labelEnabled then
      Node("LabelStyle", None, [Leaf("color", ColorToKmlColor(p.labelColor, Num(1.0))), Leaf("scale", show(p.labelScale))], 4)
    else
      Node("LabelStyle", None, [Leaf("scale", "0")], 4)
  }

  function PointTree(p: PointStyle, show: Number -> string): Element {
    Node("Style", Some(p.id), [IconStyleTree(p, show), LabelStyleTree(p, show)], 3)
  }

  function LineStyleTree(color: string, width: Number, show: Number -> string): Element {
    Node("LineStyle", None, [Leaf("color", ColorToKmlColor(color, Num(1.0))), Leaf("width", show(width))], 4)
  }

  function LineTree(l: LineStyle, show: Number -> string): Element {
    Node("Style", Some(l.id), [LineStyleTree(l.lineColor, l.lineWidth, show)], 3)
  }

  function PolyStyleTree(q: PolygonStyle): Element {
    Node("PolyStyle", None, [
      Leaf("color", ColorToKmlColor(q.fillColor, q.fillOpacity)),
      Leaf("fill", FlagText(q.polyFill)),
      Leaf("outline", FlagText(q.polyOutline))], 4)
  }

  function OutlineTrees(q: PolygonStyle, show: Number -> string): seq<Element> {
    if q.polyOutline then [LineStyleTree(q.lineColor, q.lineWidth, show)] else []
  }

  function PolygonTree(q: PolygonStyle, show: Number -> string): Element {
    Node("Style", Some(q.id), [PolyStyleTree(q)] + OutlineTrees(q, show), 3)
  }

  // ---------------------------------------------------------------------------
  // The fragments are those trees, printed

  lemma IndentValues()
    ensures Indent(3) == "      " && Indent(4) == "        " && Indent(5) == "          " && Indent(6) == "            "
  {
  }

  /** The opening and closing lines of the elements the fragments contain, spelled out. */
  lemma IconStyleLines()
    ensures "\n" + Indent(4) + OpenTag("IconStyle", None) == "\n        <IconStyle>"
    ensures "\n" + Indent(4) + CloseTag("IconStyle") == "\n        </IconStyle>"
  {
    IndentValues();
  }

  lemma LabelStyleLines()
    ensures "\n" + Indent(4) + OpenTag("LabelStyle", None) == "\n        <LabelStyle>"
    ensures "\n" + Indent(4) + CloseTag("LabelStyle") == "\n        </LabelStyle>"
  {
    IndentValues();
  }

  lemma LineStyleLines()
    ensures "\n" + Indent(4) + OpenTag("LineStyle", None) == "\n        <LineStyle>"
    ensures "\n" + Indent(4) + CloseTag("LineStyle") == "\n        </LineStyle>"
  {
    IndentValues();
  }

  lemma PolyStyleLines()
    ensures "\n" + Indent(4) + OpenTag("PolyStyle", None) == "\n        <PolyStyle>"
    ensures "\n" + Indent(4) + CloseTag("PolyStyle") == "\n        </PolyStyle>"
  {
    IndentValues();
  }

  lemma IconLines()
    ensures "\n" + Indent(5) + OpenTag("Icon", None) == "\n          <Icon>"
    ensures "\n" + Indent(5) + CloseTag("Icon") == "\n          </Icon>"
  {
    IndentValues();
  }

  lemma ColorLines()
    ensures "\n" + Indent(5) + "<" + "color" + ">" == "\n          <color>" && "</" + "color" + ">" == "</color>"
  {
    IndentValues();
  }

  lemma ScaleLines()
    ensures "\n" + Indent(5) + "<" + "scale" + ">" == "\n          <scale>" && "</" + "scale" + ">" == "</scale>"
  {
    IndentValues();
  }

  lemma HeadingLines()
    ensures "\n" + Indent(5) + "<" + "heading" + ">" == "\n          <heading>" && "</" + "heading" + ">" == "</heading>"
  {
    IndentValues();
  }

  lemma WidthLines()
    ensures "\n" + Indent(5) + "<" + "width" + ">" == "\n          <width>" && "</" + "width" + ">" == "</width>"
  {
    IndentValues();
  }

  lemma FillLines()
    ensures "\n" + Indent(5) + "<" + "fill" + ">" == "\n          <fill>" && "</" + "fill" + ">" == "</fill>"
  {
    IndentValues();
  }

  lemma OutlineLines()
    ensures "\n" + Indent(5) + "<" + "outline" + ">" == "\n          <outline>" && "</" + "outline" + ">" == "</outline>"
  {
    IndentValues();
  }

  lemma HrefLines()
    ensures "\n" + Indent(6) + "<" + "href" + ">" == "\n            <href>" && "</" + "href" + ">" == "</href>"
  {
    IndentValues();
  }

  lemma RenderAllCons(e: Element, rest: seq<Element>, depth: nat)
    ensures RenderAll([e] + rest, depth) == Render(e, depth) + RenderAll(rest, depth)
  {
    assert ([e] + rest)[1..] == rest;
  }

  /** A leaf printed at `depth`, given the literal text of its opening line and of its closing tag. */
  lemma LeafLine(tag: string, text: string, depth: nat, open: string, close: string)
    requires open == "\n" + Indent(depth) + "<" + tag + ">" && close == "</" + tag + ">"
    ensures Render(Leaf(tag, text), depth) == open + text + close
  {
  }

  /** An element with children printed at `depth`, given the literal text of its opening and closing lines. */
  lemma NodeLines(tag: string, id: Option<string>, children: seq<Element>, depth: nat, open: string, close: string)
    requires children != []
    requires open == "\n" + Indent(depth) + OpenTag(tag, id) && close == "\n" + Indent(depth) + CloseTag(tag)
    ensures Render(Node(tag, id, children, depth), depth) == open + RenderAll(children, depth + 1) + close
  {
    RegroupNode(open, RenderAll(children, depth + 1), "\n", Indent(depth), CloseTag(tag));
  }

  lemma RegroupNode(o: string, r: string, n: string, i: string, t: string)
    ensures o + (r + n + i) + t == o + r + (n + i + t)
  {
  }

  lemma Regroup16(o: string, a0: string, t0: string, z0: string, a1: string, t1: string, z1: string,
                  a2: string, t2: string, z2: string, io: string, ah: string, u: string, zh: string, ic: string, c: string)
    ensures o + ((a0 + t0 + z0) + ((a1 + t1 + z1) + ((a2 + t2 + z2) + ((io + ((ah + u + zh) + "") + ic) + "")))) + c
         == o + a0 + t0 + z0 + a1 + t1 + z1 + a2 + t2 + z2 + io + ah + u + zh + ic + c
  {
  }

  lemma Regroup8(o: string, a0: string, t0: string, z0: string, a1: string, t1: string, z1: string, c: string)
    ensures o + ((a0 + t0 + z0) + ((a1 + t1 + z1) + "")) + c == o + a0 + t0 + z0 + a1 + t1 + z1 + c
  {
  }

  lemma Regroup11(o: string, a0: string, t0: string, z0: string, a1: string, t1: string, z1: string,
                  a2: string, t2: string, z2: string, c: string)
    ensures o + ((a0 + t0 + z0) + ((a1 + t1 + z1) + ((a2 + t2 + z2) + ""))) + c
         == o + a0 + t0 + z0 + a1 + t1 + z1 + a2 + t2 + z2 + c
  {
  }

  lemma Regroup4(o: string, a: string, b: string, c: string)
    ensures o + (a + (b + "")) + c == o + a + b + c
  {
  }

  lemma IconStyleIsPrinted(p: PointStyle, show: Number -> string)
    ensures Render(IconStyleTree(p, show), 4) == IconStyleKml(p, show)
  {
    IconStyleLines();
    ColorLines();
    ScaleLines();
    HeadingLines();
    IconLines();
    HrefLines();
    var color := ColorToKmlColor(p.iconColor, Num(1.0));
    var c0 := Leaf("color", color);
    var c1 := Leaf("scale", show(p.iconScale));
    var c2 := Leaf("heading", show(p.iconHeading));
    var href := Leaf("href", p.iconUrl);
    var c3 := Node("Icon", None, [href], 5);
    LeafLine("color", color, 5, "\n          <color>", "</color>");
    LeafLine("scale", show(p.iconScale), 5, "\n          <scale>", "</scale>");
    LeafLine("heading", show(p.iconHeading), 5, "\n          <heading>", "</heading>");
    LeafLine("href", p.iconUrl, 6, "\n            <href>", "</href>");
    RenderAllCons(href, [], 6);
    NodeLines("Icon", None, [href], 5, "\n          <Icon>", "\n          </Icon>");
    RenderAllCons(c3, [], 5);
    RenderAllCons(c2, [c3], 5);
    RenderAllCons(c1, [c2, c3], 5);
    RenderAllCons(c0, [c1, c2, c3], 5);
    NodeLines("IconStyle", None, [c0, c1, c2, c3], 4, "\n        <IconStyle>", "\n        </IconStyle>");
    Regroup16("\n        <IconStyle>", "\n          <color>", color, "</color>",
      "\n          <scale>", show(p.iconScale), "</scale>", "\n          <heading>", show(p.iconHeading), "</heading>",
      "\n          <Icon>", "\n            <href>", p.iconUrl, "</href>", "\n          </Icon>", "\n        </IconStyle>");
  }

  lemma LabelStyleIsPrinted(p: PointStyle, show: Number -> string)
    ensures Render(LabelStyleTree(p, show), 4) == LabelStyleKml(p, show)
  {
    LabelStyleLines();
    ScaleLines();
    if p.labelEnabled {
      ColorLines();
      var color := ColorToKmlColor(p.labelColor, Num(1.0));
      var c0 := Leaf("color", color);
      var c1 := Leaf("scale", show(p.labelScale));
      LeafLine("color", color, 5, "\n          <color>", "</color>");
      LeafLine("scale", show(p.labelScale), 5, "\n          <scale>", "</scale>");
      RenderAllCons(c1, [], 5);
      RenderAllCons(c0, [c1], 5);
      NodeLines("LabelStyle", None, [c0, c1], 4, "\n        <LabelStyle>", "\n        </LabelStyle>");
      Regroup8("\n        <LabelStyle>", "\n          <color>", color, "</color>",
        "\n          <scale>", show(p.labelScale), "</scale>", "\n        </LabelStyle>");
    } else {
      var c0 := Leaf("scale", "0");
      LeafLine("scale", "0", 5, "\n          <scale>", "</scale>");
      RenderAllCons(c0, [], 5);
      NodeLines("LabelStyle", None, [c0], 4, "\n        <LabelStyle>", "\n        </LabelStyle>");
      assert "\n          <scale>" + "0" + "</scale>" == "\n          <scale>0</scale>";
    }
  }

  lemma LineStyleIsPrinted(color: string, width: Number, show: Number -> string)
    ensures Render(LineStyleTree(color, width, show), 4) == LineStyleKml(color, width, show)
  {
    LineStyleLines();
    ColorLines();
    WidthLines();
    var kml := ColorToKmlColor(color, Num(1.0));
    var c0 := Leaf("color", kml);
    var c1 := Leaf("width", show(width));
    LeafLine("color", kml, 5, "\n          <color>", "</color>");
    LeafLine("width", show(width), 5, "\n          <width>", "</width>");
    RenderAllCons(c1, [], 5);
    RenderAllCons(c0, [c1], 5);
    NodeLines("LineStyle", None, [c0, c1], 4, "\n        <LineStyle>", "\n        </LineStyle>");
    Regroup8("\n        <LineStyle>", "\n          <color>", kml, "</color>",
      "\n          <width>", show(width), "</width>", "\n        </LineStyle>");
  }

  lemma PolyStyleIsPrinted(q: PolygonStyle)
    ensures Render(PolyStyleTree(q), 4) == PolyStyleKml(q)
  {
    PolyStyleLines();
    ColorLines();
    FillLines();
    OutlineLines();
    var color := ColorToKmlColor(q.fillColor, q.fillOpacity);
    var c0 := Leaf("color", color);
    var c1 := Leaf("fill", FlagText(q.polyFill));
    var c2 := Leaf("outline", FlagText(q.polyOutline));
    LeafLine("color", color, 5, "\n          <color>", "</color>");
    LeafLine("fill", FlagText(q.polyFill), 5, "\n          <fill>", "</fill>");
    LeafLine("outline", FlagText(q.polyOutline), 5, "\n          <outline>", "</outline>");
    RenderAllCons(c2, [], 5);
    RenderAllCons(c1, [c2], 5);
    RenderAllCons(c0, [c1, c2], 5);
    NodeLines("PolyStyle", None, [c0, c1, c2], 4, "\n        <PolyStyle>", "\n        </PolyStyle>");
    Regroup11("\n        <PolyStyle>", "\n          <color>", color, "</color>",
      "\n          <fill>", FlagText(q.polyFill), "</fill>", "\n          <outline>", FlagText(q.polyOutline), "</outline>",
      "\n        </PolyStyle>");
  }

  /** The text before the id on the opening line of a `Style` at level 3, spelled out. */
  lemma StyleOpenPrefix()
    ensures ("\n" + Indent(3)) + ("<" + "Style" + " id=\"") == "\n      <Style id=\""
  {
    IndentValues();
  }

  lemma StyleCloseLine()
    ensures "\n" + Indent(3) + CloseTag("Style") == StyleClose
  {
    IndentValues();
  }

  lemma OpenTagWithId(lead: string, open: string, id: string, close: string)
    ensures lead + ((open + id) + close) == ((lead + open) + id) + close
  {
  }

  /** The opening line of a `Style` at level 3, spelled out. */
  lemma StyleOpenLine(id: string)
    ensures "\n" + Indent(3) + OpenTag("Style", Some(id)) == StyleOpen(id)
  {
    StyleOpenPrefix();
    OpenTagWithId("\n" + Indent(3), "<" + "Style" + " id=\"", id, "\">");
  }

  /** A `Style` element printed at level 3 is its opening line, its children and its closing line. */
  lemma StyleIsPrinted(id: string, children: seq<Element>)
    requires children != []
    ensures Render(Node("Style", Some(id), children, 3), 3) == StyleOpen(id) + RenderAll(children, 4) + StyleClose
  {
    StyleOpenLine(id);
    StyleCloseLine();
    NodeLines("Style", Some(id), children, 3, StyleOpen(id), StyleClose);
  }

  /** A `Style` with one child, printed. */
  lemma StyleOfOneIsPrinted(id: string, a: Element)
    ensures Render(Node("Style", Some(id), [a], 3), 3) == StyleOpen(id) + Render(a, 4) + StyleClose
  {
    RenderAllCons(a, [], 4);
    StyleIsPrinted(id, [a]);
    assert Render(a, 4) + "" == Render(a, 4);
  }

  /** A `Style` with two children, printed. */
  lemma StyleOfTwoIsPrinted(id: string, a: Element, b: Element)
    ensures Render(Node("Style", Some(id), [a, b], 3), 3) == StyleOpen(id) + Render(a, 4) + Render(b, 4) + StyleClose
  {
    RenderAllCons(b, [], 4);
    RenderAllCons(a, [b], 4);
    StyleIsPrinted(id, [a, b]);
    Regroup4(StyleOpen(id), Render(a, 4), Render(b, 4), StyleClose);
  }

  /** The point fragment is the point's tree, printed. */
  lemma PointKmlIsPrinted(p: PointStyle, show: Number -> string)
    ensures PointKml(p, show) == Render(PointTree(p, show), 3)
  {
    IconStyleIsPrinted(p, show);
    LabelStyleIsPrinted(p, show);
    StyleOfTwoIsPrinted(p.id, IconStyleTree(p, show), LabelStyleTree(p, show));
  }

  /** The line fragment is the line's tree, printed. */
  lemma LineKmlIsPrinted(l: LineStyle, show: Number -> string)
    ensures LineKml(l, show) == Render(LineTree(l, show), 3)
  {
    LineStyleIsPrinted(l.lineColor, l.lineWidth, show);
    StyleOfOneIsPrinted(l.id, LineStyleTree(l.lineColor, l.lineWidth, show));
  }

  /** The polygon fragment is the polygon's tree, printed. */
  lemma PolygonKmlIsPrinted(q: PolygonStyle, show: Number -> string)
    ensures PolygonKml(q, show) == Render(PolygonTree(q, show), 3)
  {
    if q.polyOutline {
      OutlinedPolygonIsPrinted(q, show);
    } else {
      PlainPolygonIsPrinted(q, show);
    }
  }

  lemma OutlinedPolygonIsPrinted(q: PolygonStyle, show: Number -> string)
    requires q.polyOutline
    ensures PolygonKml(q, show) == Render(PolygonTree(q, show), 3)
  {
    var poly, lineTree := PolyStyleTree(q), LineStyleTree(q.lineColor, q.lineWidth, show);
    PolyStyleIsPrinted(q);
    LineStyleIsPrinted(q.lineColor, q.lineWidth, show);
    assert [poly] + OutlineTrees(q, show) == [poly, lineTree];
    StyleOfTwoIsPrinted(q.id, poly, lineTree);
  }

  lemma PlainPolygonIsPrinted(q: PolygonStyle, show: Number -> string)
    requires !q.polyOutline
    ensures PolygonKml(q, show) == Render(PolygonTree(q, show), 3)
  {
    var poly := PolyStyleTree(q);
    PolyStyleIsPrinted(q);
    assert [poly] + OutlineTrees(q, show) == [poly];
    StyleOfOneIsPrinted(q.id, poly);
    AppendNothing(StyleOpen(q.id) + PolyStyleKml(q), StyleClose);
  }

  lemma AppendNothing(a: string, b: string)
    ensures a + "" + b == a + b
  {
  }
}
