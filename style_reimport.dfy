/**
  What an export followed by an import does to the style records: the
  element tree each fragment of `StyleSerializer` prints, read back by
  `StyleParser`. Numbers are written with JavaScript's number-to-text
  conversion (`show`), which is not modelled; the lemmas require only that the
  text it gives is non-empty, has no surrounding whitespace and reads back
  as the same number.
*/
module StyleReimport {
  import opened Wrappers
  import opened JsRuntime
  import opened KmlTree
  import opened ColorCodec
  import opened StyleRecords
  import opened StyleParser
  import opened StyleSerializer

  /** `show(x)` is text that `parse` reads back as `x` once trimmed. */
  predicate ShowsAs(show: Number -> string, parse: string -> Number, x: Number) {
    show(x) != "" && Trim(show(x)) == show(x) && parse(show(x)) == x
  }

  lemma HexDigitIsNotWhitespace(c: char)
    requires IsHexDigit(c)
    ensures !IsWhitespace(c)
  {
  }

  /** The KML text written for a `#rrggbb` colour has no surrounding whitespace and decodes back. */
  lemma KmlColorText(hex: string, opacity: real)
    requires IsHexColor(hex) && 0.0 <= opacity <= 1.0
    ensures var k := ColorToKmlColor(hex, Num(opacity));
            && k != [] && Trim(k) == k
            && ConvertKmlToHex(k) == hex
            && ExtractAlpha(k) == Num(Round(opacity * 255.0) as real / 255.0)
  {
    EncodeThenDecode(hex, opacity);
    var n := Round(opacity * 255.0);
    ByteHex(n);
    var k := ColorToKmlColor(hex, Num(opacity));
    assert k == PadStart2(NatToHex(n)) + hex[5..7] + hex[3..5] + hex[1..3];
    assert k[0] == PadStart2(NatToHex(n))[0];
    assert k[7] == hex[2];
    HexDigitIsNotWhitespace(k[0]);
    HexDigitIsNotWhitespace(k[7]);
    TrimNoop(k);
  }

  /** The descendants of an element shaped like an icon style: three leaves, then a link holding one leaf. */
  lemma IconShapeDescendants(icon: Element, c0: Element, c1: Element, c2: Element, c3: Element, href: Element)
    requires icon.children == [c0, c1, c2, c3]
    requires c0.children == [] && c1.children == [] && c2.children == [] && c3.children == [href] && href.children == []
    ensures Descendants(icon) == [c0, c1, c2, c3, href]
  {
    PreorderOfLeaf(c0);
    PreorderOfLeaf(c1);
    PreorderOfLeaf(c2);
    PreorderOfLeaf(href);
    PreorderAllOne(href);
    assert Preorder(c3) == [c3, href];
    PreorderAllOne(c3);
    PreorderAllCons(c2, [c3]);
    PreorderAllCons(c1, [c2, c3]);
    PreorderAllCons(c0, [c1, c2, c3]);
    assert [c0] + [c1, c2, c3] == [c0, c1, c2, c3];
    assert [c1] + [c2, c3] == [c1, c2, c3];
    assert [c2] + [c3] == [c2, c3];
  }

  lemma IconStyleDescendants(p: PointStyle, show: Number -> string)
    ensures Descendants(IconStyleTree(p, show)) == [
      Leaf("color", ColorToKmlColor(p.iconColor, Num(1.0))),
      Leaf("scale", show(p.iconScale)),
      Leaf("heading", show(p.iconHeading)),
      Node("Icon", None, [Leaf("href", p.iconUrl)], 5),
      Leaf("href", p.iconUrl)]
  {
    var icon := IconStyleTree(p, show);
    IconShapeDescendants(icon, icon.children[0], icon.children[1], icon.children[2], icon.children[3], Leaf("href", p.iconUrl));
  }

  lemma TwoLeavesDescendants(e: Element, a: Element, b: Element)
    requires e.children == [a, b] && a.children == [] && b.children == []
    ensures Descendants(e) == [a, b]
  {
    PreorderOfLeaf(a);
    PreorderOfLeaf(b);
    PreorderAllOne(b);
    PreorderAllCons(a, [b]);
    assert [a] + [b] == [a, b];
  }

  lemma OneChildDescendants(e: Element, a: Element)
    requires e.children == [a]
    ensures Descendants(e) == Preorder(a)
  {
    PreorderAllOne(a);
  }

  /** The style tags the reader looks for are all at least nine letters long; no field tag is. */
  lemma StyleTagNames()
    ensures "IconStyle" != "LineStyle" && "IconStyle" != "PolyStyle" && "LineStyle" != "PolyStyle"
    ensures |"IconStyle"| == 9 && |"LabelStyle"| == 10 && |"LineStyle"| == 9 && |"PolyStyle"| == 9
  {
    assert "IconStyle"[0] != "LineStyle"[0] && "IconStyle"[0] != "PolyStyle"[0] && "LineStyle"[0] != "PolyStyle"[0];
  }

  lemma IconStyleHasNoStyle(p: PointStyle, show: Number -> string, tag: string)
    requires |tag| >= 9
    ensures FirstByTag(IconStyleTree(p, show), tag).None?
  {
    IconStyleDescendants(p, show);
  }

  lemma LabelStyleHasNoStyle(p: PointStyle, show: Number -> string, tag: string)
    requires |tag| >= 9
    ensures FirstByTag(LabelStyleTree(p, show), tag).None?
  {
    PreorderOfLeaves(LabelStyleTree(p, show).children);
  }

  /** The search for a style tag in a point's tree: the icon style, the label style, or nothing. */
  lemma PointTreeFirst(p: PointStyle, show: Number -> string, tag: string)
    requires |tag| >= 9
    ensures FirstByTag(PointTree(p, show), tag) ==
              if tag == "IconStyle" then Some(IconStyleTree(p, show))
              else if tag == "LabelStyle" then Some(LabelStyleTree(p, show))
              else None
  {
    IconStyleHasNoStyle(p, show, tag);
    LabelStyleHasNoStyle(p, show, tag);
    FirstOfTwo(PointTree(p, show), IconStyleTree(p, show), LabelStyleTree(p, show), tag);
  }

  /** Where the style reader finds the parts of a point's tree. */
  lemma PointTreeParts(p: PointStyle, show: Number -> string)
    ensures FirstByTag(PointTree(p, show), "IconStyle") == Some(IconStyleTree(p, show))
    ensures FirstByTag(PointTree(p, show), "LabelStyle") == Some(LabelStyleTree(p, show))
    ensures FirstByTag(PointTree(p, show), "LineStyle").None? && FirstByTag(PointTree(p, show), "PolyStyle").None?
  {
    StyleTagNames();
    PointTreeFirst(p, show, "IconStyle");
    PointTreeFirst(p, show, "LabelStyle");
    PointTreeFirst(p, show, "LineStyle");
    PointTreeFirst(p, show, "PolyStyle");
  }

  /** A field found at position `k` of the descendants reads as that element's trimmed text. */
  lemma TextFieldAt(e: Element, tag: string, k: nat)
    requires k < |Descendants(e)| && Descendants(e)[k].tag == tag
    requires forall j :: 0 <= j < k ==> Descendants(e)[j].tag != tag
    ensures TextField(e, tag) == (var t := Descendants(e)[k].text; if t == "" then None else Some(Trim(t)))
  {
    FirstWithTagAt(Descendants(e), tag, k);
  }

  lemma IconFieldTagsDiffer()
    ensures "color" != "scale" && "color" != "heading" && "scale" != "heading"
    ensures "Icon" != "color" && "Icon" != "scale" && "Icon" != "heading"
  {
    assert "color"[0] != "scale"[0] && "Icon"[0] != "color"[0];
  }

  /** An icon style laid out as the export writes it: the four fields it reads, in that order. */
  lemma IconStyleReads(icon: Element, link: Element, color: string, scale: string, heading: string, url: string)
    requires Descendants(icon) == [Leaf("color", color), Leaf("scale", scale), Leaf("heading", heading), link, Leaf("href", url)]
    requires link.tag == "Icon" && link.children == [Leaf("href", url)]
    ensures TextField(icon, "color") == (if color == "" then None else Some(Trim(color)))
    ensures TextField(icon, "scale") == (if scale == "" then None else Some(Trim(scale)))
    ensures TextField(icon, "heading") == (if heading == "" then None else Some(Trim(heading)))
    ensures IconUrl(icon) == Trim(url)
  {
    IconFieldTagsDiffer();
    IconColorAndScaleRead(icon, link, color, scale, heading, url);
    TextFieldAt(icon, "heading", 2);
    IconLinkRead(icon, link, url);
  }

  lemma IconColorAndScaleRead(icon: Element, link: Element, color: string, scale: string, heading: string, url: string)
    requires Descendants(icon) == [Leaf("color", color), Leaf("scale", scale), Leaf("heading", heading), link, Leaf("href", url)]
    ensures TextField(icon, "color") == (if color == "" then None else Some(Trim(color)))
    ensures TextField(icon, "scale") == (if scale == "" then None else Some(Trim(scale)))
  {
    IconFieldTagsDiffer();
    TextFieldAt(icon, "color", 0);
    TextFieldAt(icon, "scale", 1);
  }

  lemma IconLinkRead(icon: Element, link: Element, url: string)
    requires |Descendants(icon)| == 5 && Descendants(icon)[3] == link
    requires forall j :: 0 <= j < 3 ==> Descendants(icon)[j].tag != "Icon"
    requires link.tag == "Icon" && link.children == [Leaf("href", url)]
    ensures IconUrl(icon) == Trim(url)
  {
    FirstWithTagAt(Descendants(icon), "Icon", 3);
    OneChildDescendants(link, link.children[0]);
    PreorderOfLeaf(link.children[0]);
    TextFieldAt(link, "href", 0);
  }

  /** The icon style's fields, read back. */
  lemma IconStyleFields(p: PointStyle, show: Number -> string, parseFloat: string -> Number)
    requires IsHexColor(p.iconColor)
    requires ShowsAs(show, parseFloat, p.iconScale) && ShowsAs(show, parseFloat, p.iconHeading)
    ensures var icon := IconStyleTree(p, show);
            && IconUrl(icon) == Trim(p.iconUrl)
            && NumberField(icon, "scale", parseFloat, Num(1.0)) == p.iconScale
            && NumberField(icon, "heading", parseFloat, Num(0.0)) == p.iconHeading
            && ColorField(icon, "color", "#ffffff") == p.iconColor
  {
    var icon := IconStyleTree(p, show);
    IconStyleDescendants(p, show);
    KmlColorText(p.iconColor, 1.0);
    IconStyleReads(icon, icon.children[3], ColorToKmlColor(p.iconColor, Num(1.0)), show(p.iconScale), show(p.iconHeading), p.iconUrl);
  }

  /** The label style's fields, read back: as written when on, the defaults and `parseFloat("0")` when off. */
  lemma LabelStyleFields(p: PointStyle, show: Number -> string, parseFloat: string -> Number)
    requires p.labelEnabled ==> IsHexColor(p.labelColor) && ShowsAs(show, parseFloat, p.labelScale)
    ensures var labelTree := Some(LabelStyleTree(p, show));
            && (p.labelEnabled ==> LabelColor(labelTree) == p.labelColor && LabelScale(labelTree, parseFloat) == p.labelScale)
            && (!p.labelEnabled ==> LabelColor(labelTree) == "#000000" && LabelScale(labelTree, parseFloat) == parseFloat("0"))
  {
    var labelTree := LabelStyleTree(p, show);
    if p.labelEnabled {
      KmlColorText(p.labelColor, 1.0);
      TwoLeavesDescendants(labelTree, labelTree.children[0], labelTree.children[1]);
      FirstWithTagAt(Descendants(labelTree), "color", 0);
      FirstWithTagAt(Descendants(labelTree), "scale", 1);
    } else {
      OneChildDescendants(labelTree, labelTree.children[0]);
      PreorderOfLeaf(labelTree.children[0]);
      FirstWithTagAt(Descendants(labelTree), "scale", 0);
      assert FirstByTag(labelTree, "color").None?;
      TrimNoop("0");
    }
  }

  /** The point record read from a `Style` whose parts read as the fields of `r`. */
  lemma PointReadBack(tree: Element, i: nat, icon: Element, labelTree: Element, parseFloat: string -> Number, r: PointStyle)
    requires FirstByTag(tree, "IconStyle") == Some(icon) && FirstByTag(tree, "LabelStyle") == Some(labelTree)
    requires StyleId(tree, i) == r.id && IconUrl(icon) == r.iconUrl && ColorField(icon, "color", "#ffffff") == r.iconColor
    requires NumberField(icon, "scale", parseFloat, Num(1.0)) == r.iconScale
    requires NumberField(icon, "heading", parseFloat, Num(0.0)) == r.iconHeading
    requires r.labelEnabled && LabelColor(Some(labelTree)) == r.labelColor && LabelScale(Some(labelTree), parseFloat) == r.labelScale
    ensures PointOf(tree, i, parseFloat) == Some(r)
  {
  }

  /**
    Re-reading an exported point record gives it back with three changes:
    the icon URL is trimmed, the label always reads as enabled, and a label
    that was off comes back with the default colour and the scale `0`
    parses to. The fragment yields no line and no polygon record.
  */
  lemma ReimportPoint(p: PointStyle, i: nat, show: Number -> string, parseFloat: string -> Number)
    requires p.id != ""
    requires IsHexColor(p.iconColor)
    requires ShowsAs(show, parseFloat, p.iconScale) && ShowsAs(show, parseFloat, p.iconHeading)
    requires p.labelEnabled ==> IsHexColor(p.labelColor) && ShowsAs(show, parseFloat, p.labelScale)
    ensures PointOf(PointTree(p, show), i, parseFloat) == Some(p.(
              iconUrl := Trim(p.iconUrl),
              labelEnabled := true,
              labelColor := if p.labelEnabled then p.labelColor else "#000000",
              labelScale := if p.labelEnabled then p.labelScale else parseFloat("0")))
    ensures LineOf(PointTree(p, show), i).None? && PolygonOf(PointTree(p, show), i).None?
  {
    PointTreeParts(p, show);
    IconStyleFields(p, show, parseFloat);
    LabelStyleFields(p, show, parseFloat);
    PointReadBack(PointTree(p, show), i, IconStyleTree(p, show), LabelStyleTree(p, show), parseFloat, p.(
      iconUrl := Trim(p.iconUrl),
      labelEnabled := true,
      labelColor := if p.labelEnabled then p.labelColor else "#000000",
      labelScale := if p.labelEnabled then p.labelScale else parseFloat("0")));
  }

  // ---------------------------------------------------------------------------
  // Lines and polygons

  /** The flags are written as `1`/`0`, which read back as the same flag. */
  lemma FlagTextReads(b: bool)
    ensures FlagText(b) != "" && Trim(FlagText(b)) == FlagText(b)
    ensures NotZero(ParseDecimal(FlagText(b))) == b
  {
    assert NatToString(1) == "1" && NatToString(0) == "0";
    NatToStringParses(1);
    NatToStringParses(0);
    TrimNoop(FlagText(b));
  }

  /** An element whose descendants are two leaves with different tags. */
  lemma TwoLeavesRead(e: Element, tag0: string, t0: string, tag1: string, t1: string)
    requires Descendants(e) == [Leaf(tag0, t0), Leaf(tag1, t1)] && tag0 != tag1
    ensures TextField(e, tag0) == (if t0 == "" then None else Some(Trim(t0)))
    ensures TextField(e, tag1) == (if t1 == "" then None else Some(Trim(t1)))
  {
    FirstWithTagAt(Descendants(e), tag0, 0);
    FirstWithTagAt(Descendants(e), tag1, 1);
  }

  /** An element whose descendants are three leaves with different tags. */
  lemma ThreeLeavesRead(e: Element, tag0: string, t0: string, tag1: string, t1: string, tag2: string, t2: string)
    requires Descendants(e) == [Leaf(tag0, t0), Leaf(tag1, t1), Leaf(tag2, t2)]
    requires tag0 != tag1 && tag0 != tag2 && tag1 != tag2
    ensures TextField(e, tag0) == (if t0 == "" then None else Some(Trim(t0)))
    ensures TextField(e, tag1) == (if t1 == "" then None else Some(Trim(t1)))
    ensures TextField(e, tag2) == (if t2 == "" then None else Some(Trim(t2)))
  {
    FirstWithTagAt(Descendants(e), tag0, 0);
    FirstWithTagAt(Descendants(e), tag1, 1);
    FirstWithTagAt(Descendants(e), tag2, 2);
  }

  lemma ThreeLeavesDescendants(e: Element, a: Element, b: Element, c: Element)
    requires e.children == [a, b, c] && a.children == [] && b.children == [] && c.children == []
    ensures Descendants(e) == [a, b, c]
  {
    PreorderOfLeaf(a);
    PreorderOfLeaf(b);
    PreorderOfLeaf(c);
    PreorderAllOne(c);
    PreorderAllCons(b, [c]);
    PreorderAllCons(a, [b, c]);
    assert [b] + [c] == [b, c];
    assert [a] + [b, c] == [a, b, c];
  }

  /** A line style's fields, read back. */
  lemma LineStyleFields(color: string, width: Number, show: Number -> string)
    requires IsHexColor(color) && ShowsAs(show, ParseDecimal, width)
    ensures var e := LineStyleTree(color, width, show);
            && ColorField(e, "color", "#000000") == color
            && NumberField(e, "width", ParseDecimal, Num(1.0)) == width
  {
    var e := LineStyleTree(color, width, show);
    KmlColorText(color, 1.0);
    TwoLeavesDescendants(e, e.children[0], e.children[1]);
    TwoLeavesRead(e, "color", ColorToKmlColor(color, Num(1.0)), "width", show(width));
  }

  lemma LineStyleHasNoStyle(color: string, width: Number, show: Number -> string, tag: string)
    requires |tag| >= 9
    ensures FirstByTag(LineStyleTree(color, width, show), tag).None?
  {
    PreorderOfLeaves(LineStyleTree(color, width, show).children);
  }

  /** Where the style reader finds the parts of a line's tree. */
  lemma LineTreeParts(l: LineStyle, show: Number -> string)
    ensures FirstByTag(LineTree(l, show), "LineStyle") == Some(LineStyleTree(l.lineColor, l.lineWidth, show))
    ensures FirstByTag(LineTree(l, show), "IconStyle").None? && FirstByTag(LineTree(l, show), "PolyStyle").None?
  {
    var e := LineStyleTree(l.lineColor, l.lineWidth, show);
    StyleTagNames();
    LineStyleHasNoStyle(l.lineColor, l.lineWidth, show, "IconStyle");
    LineStyleHasNoStyle(l.lineColor, l.lineWidth, show, "PolyStyle");
    FirstOfOne(LineTree(l, show), e, "LineStyle");
    FirstOfOne(LineTree(l, show), e, "IconStyle");
    FirstOfOne(LineTree(l, show), e, "PolyStyle");
  }

  /** An exported line record reads back as exactly itself, and as no point or polygon record. */
  lemma ReimportLine(l: LineStyle, i: nat, show: Number -> string, parseFloat: string -> Number)
    requires l.id != ""
    requires IsHexColor(l.lineColor) && ShowsAs(show, ParseDecimal, l.lineWidth)
    ensures LineOf(LineTree(l, show), i) == Some(l)
    ensures PointOf(LineTree(l, show), i, parseFloat).None? && PolygonOf(LineTree(l, show), i).None?
  {
    LineTreeParts(l, show);
    LineStyleFields(l.lineColor, l.lineWidth, show);
  }

  /** The texts of a polygon style's fields. */
  lemma PolyStyleTexts(q: PolygonStyle)
    requires IsHexColor(q.fillColor) && q.fillOpacity.Num? && 0.0 <= q.fillOpacity.value <= 1.0
    ensures var e := PolyStyleTree(q);
            && TextField(e, "color") == Some(ColorToKmlColor(q.fillColor, q.fillOpacity))
            && TextField(e, "fill") == Some(FlagText(q.polyFill))
            && TextField(e, "outline") == Some(FlagText(q.polyOutline))
  {
    var e := PolyStyleTree(q);
    KmlColorText(q.fillColor, q.fillOpacity.value);
    FlagTextReads(q.polyFill);
    FlagTextReads(q.polyOutline);
    ThreeLeavesDescendants(e, e.children[0], e.children[1], e.children[2]);
    ThreeLeavesRead(e, "color", ColorToKmlColor(q.fillColor, q.fillOpacity), "fill", FlagText(q.polyFill),
                    "outline", FlagText(q.polyOutline));
  }

  /** A polygon style's colour, read back. */
  lemma PolyStyleColor(q: PolygonStyle)
    requires IsHexColor(q.fillColor) && q.fillOpacity.Num? && 0.0 <= q.fillOpacity.value <= 1.0
    ensures ColorField(PolyStyleTree(q), "color", "#ffffff") == q.fillColor
  {
    PolyStyleTexts(q);
    KmlColorText(q.fillColor, q.fillOpacity.value);
    assert q.fillOpacity == Num(q.fillOpacity.value);
  }

  /** A polygon style's opacity, read back: rounded to a multiple of 1/255. */
  lemma PolyStyleOpacity(q: PolygonStyle)
    requires IsHexColor(q.fillColor) && q.fillOpacity.Num? && 0.0 <= q.fillOpacity.value <= 1.0
    ensures ExtractAlpha(ColorToKmlColor(q.fillColor, q.fillOpacity)) == Num(Round(q.fillOpacity.value * 255.0) as real / 255.0)
  {
    var o := q.fillOpacity.value;
    assert q.fillOpacity == Num(o);
    KmlColorText(q.fillColor, o);
  }

  /** A polygon style's flags, read back. */
  lemma PolyStyleFlags(q: PolygonStyle)
    requires IsHexColor(q.fillColor) && q.fillOpacity.Num? && 0.0 <= q.fillOpacity.value <= 1.0
    ensures FlagField(PolyStyleTree(q), "fill") == q.polyFill
    ensures FlagField(PolyStyleTree(q), "outline") == q.polyOutline
  {
    PolyStyleTexts(q);
    FlagTextReads(q.polyFill);
    FlagTextReads(q.polyOutline);
  }

  lemma PolyStyleHasNoStyle(q: PolygonStyle, tag: string)
    requires |tag| >= 9
    ensures FirstByTag(PolyStyleTree(q), tag).None?
  {
    PreorderOfLeaves(PolyStyleTree(q).children);
  }

  /** The search for a style tag in a polygon's tree: the poly style, the outline's line style, or nothing. */
  lemma PolygonTreeFirst(q: PolygonStyle, show: Number -> string, tag: string)
    requires |tag| >= 9
    ensures FirstByTag(PolygonTree(q, show), tag) ==
              if tag == "PolyStyle" then Some(PolyStyleTree(q))
              else if tag == "LineStyle" && q.polyOutline then Some(LineStyleTree(q.lineColor, q.lineWidth, show))
              else None
  {
    var tree, poly := PolygonTree(q, show), PolyStyleTree(q);
    PolyStyleHasNoStyle(q, tag);
    if q.polyOutline {
      var line := LineStyleTree(q.lineColor, q.lineWidth, show);
      LineStyleHasNoStyle(q.lineColor, q.lineWidth, show, tag);
      assert tree.children == [poly, line];
      FirstOfTwo(tree, poly, line, tag);
    } else {
      assert tree.children == [poly];
      FirstOfOne(tree, poly, tag);
    }
  }

  /** Where the style reader finds the parts of a polygon's tree. */
  lemma PolygonTreeParts(q: PolygonStyle, show: Number -> string)
    ensures FirstByTag(PolygonTree(q, show), "PolyStyle") == Some(PolyStyleTree(q))
    ensures FirstByTag(PolygonTree(q, show), "LineStyle") ==
              if q.polyOutline then Some(LineStyleTree(q.lineColor, q.lineWidth, show)) else None
    ensures FirstByTag(PolygonTree(q, show), "IconStyle").None? && FirstByTag(PolygonTree(q, show), "LabelStyle").None?
  {
    StyleTagNames();
    PolygonTreeFirst(q, show, "PolyStyle");
    PolygonTreeFirst(q, show, "LineStyle");
    PolygonTreeFirst(q, show, "IconStyle");
    PolygonTreeFirst(q, show, "LabelStyle");
  }

  /** The polygon record read from a `Style` whose parts read as the fields of `q`. */
  lemma PolygonReadBack(tree: Element, i: nat, poly: Element, line: Option<Element>, q: PolygonStyle, opacity: Number)
    requires FirstByTag(tree, "PolyStyle") == Some(poly) && FirstByTag(tree, "LineStyle") == line
    requires StyleId(tree, i) == q.id
    requires ColorField(poly, "color", "#ffffff") == q.fillColor
    requires TextField(poly, "color").Some? && ExtractAlpha(TextField(poly, "color").value) == opacity
    requires FlagField(poly, "fill") == q.polyFill && FlagField(poly, "outline") == q.polyOutline
    requires line.Some? ==> ColorField(line.value, "color", "#000000") == q.lineColor
    requires line.Some? ==> NumberField(line.value, "width", ParseDecimal, Num(1.0)) == q.lineWidth
    ensures PolygonOf(tree, i) == Some(q.(
              fillOpacity := opacity,
              lineColor := if line.Some? then q.lineColor else "#000000",
              lineWidth := if line.Some? then q.lineWidth else Num(1.0)))
  {
  }

  /** Everything the polygon reader takes from an exported `PolyStyle`. */
  lemma PolyStyleRead(q: PolygonStyle)
    requires IsHexColor(q.fillColor) && q.fillOpacity.Num? && 0.0 <= q.fillOpacity.value <= 1.0
    ensures ColorField(PolyStyleTree(q), "color", "#ffffff") == q.fillColor
    ensures TextField(PolyStyleTree(q), "color").Some?
    ensures ExtractAlpha(TextField(PolyStyleTree(q), "color").value) == Num(Round(q.fillOpacity.value * 255.0) as real / 255.0)
    ensures FlagField(PolyStyleTree(q), "fill") == q.polyFill && FlagField(PolyStyleTree(q), "outline") == q.polyOutline
  {
    PolyStyleTexts(q);
    PolyStyleColor(q);
    PolyStyleOpacity(q);
    PolyStyleFlags(q);
  }

  /** The polygon record read back from an exported polygon style. */
  lemma ReimportPolygonRecord(q: PolygonStyle, i: nat, show: Number -> string)
    requires q.id != ""
    requires IsHexColor(q.fillColor) && q.fillOpacity.Num? && 0.0 <= q.fillOpacity.value <= 1.0
    requires q.polyOutline ==> IsHexColor(q.lineColor) && ShowsAs(show, ParseDecimal, q.lineWidth)
    ensures PolygonOf(PolygonTree(q, show), i) == Some(q.(
              fillOpacity := Num(Round(q.fillOpacity.value * 255.0) as real / 255.0),
              lineColor := if q.polyOutline then q.lineColor else "#000000",
              lineWidth := if q.polyOutline then q.lineWidth else Num(1.0)))
  {
    var tree := PolygonTree(q, show);
    PolygonTreeParts(q, show);
    PolyStyleRead(q);
    if q.polyOutline {
      LineStyleFields(q.lineColor, q.lineWidth, show);
    }
    PolygonReadBack(tree, i, PolyStyleTree(q), FirstByTag(tree, "LineStyle"), q, Num(Round(q.fillOpacity.value * 255.0) as real / 255.0));
  }

  /**
    Re-reading an exported polygon record gives it back with its fill
    opacity rounded to a multiple of 1/255 and, when it is not outlined, the
    default outline colour and width. An outlined polygon's `LineStyle` also
    reads back as a line record with the polygon's id, colour and width.
  */
  lemma ReimportPolygon(q: PolygonStyle, i: nat, show: Number -> string, parseFloat: string -> Number)
    requires q.id != ""
    requires IsHexColor(q.fillColor) && q.fillOpacity.Num? && 0.0 <= q.fillOpacity.value <= 1.0
    requires q.polyOutline ==> IsHexColor(q.lineColor) && ShowsAs(show, ParseDecimal, q.lineWidth)
    ensures PolygonOf(PolygonTree(q, show), i) == Some(q.(
              fillOpacity := Num(Round(q.fillOpacity.value * 255.0) as real / 255.0),
              lineColor := if q.polyOutline then q.lineColor else "#000000",
              lineWidth := if q.polyOutline then q.lineWidth else Num(1.0)))
    ensures LineOf(PolygonTree(q, show), i) == if q.polyOutline then Some(LineStyle(q.id, q.lineColor, q.lineWidth)) else None
    ensures PointOf(PolygonTree(q, show), i, parseFloat).None?
  {
    ReimportPolygonRecord(q, i, show);
    PolygonTreeParts(q, show);
    if q.polyOutline {
      LineStyleFields(q.lineColor, q.lineWidth, show);
    }
  }


}
