/**
  Style extraction (`readKmlStyles`): every `Style` element of the document,
  in document order, yields a point record when it has an `IconStyle`, a line
  record when it has a `LineStyle` and a polygon record when it has a
  `PolyStyle` (all three searched among its descendants). This module holds
  the per-element reading as functions and the list each kind of record
  forms; the loop that fills `styleData` is `StyleEditor.StyleData.ReadKmlStyles`.
*/
module StyleParser {
  import opened Wrappers
  import opened JsRuntime
  import opened KmlTree
  import opened ColorCodec
  import opened StyleRecords

  /** `xmlDoc.getElementsByTagName('Style')`: all Style elements, the root included, in document order. */
  function StyleElements(root: Element): (styles: seq<Element>)
    ensures forall k :: 0 <= k < |styles| ==> styles[k].tag == "Style"
  {
    DocumentElementsByTag(root, "Style")
  }

  /** `styleElement.getAttribute('id') || `style_${i+1}``: an empty or missing id is replaced
      by a synthetic one numbered from 1. */
  function StyleId(e: Element, i: nat): string {
    if e.id.Some? && e.id.value != "" then e.id.value else "style_" + NatToString(i + 1)
  }

  predicate HasOwnId(e: Element) {
    e.id.Some? && e.id.value != ""
  }

  /** `el = e.getElementsByTagName(tag)[0]; if (el && el.textContent) ... el.textContent.trim()`:
      the trimmed text of the first `tag` descendant, absent when there is none or its text is empty. */
  function TextField(e: Element, tag: string): (t: Option<string>)
    ensures FirstByTag(e, tag).None? ==> t.None?
    ensures FirstByTag(e, tag).Some? && FirstByTag(e, tag).value.text == "" ==> t.None?
    ensures FirstByTag(e, tag).Some? && FirstByTag(e, tag).value.text != "" ==>
              t == Some(Trim(FirstByTag(e, tag).value.text))
  {
    match FirstByTag(e, tag)
    case None => None
    case Some(x) => if x.text == "" then None else Some(Trim(x.text))
  }

  /** A numeric field: `parse` of the field's text, or `default` when the field is absent or empty. */
  function NumberField(e: Element, tag: string, parse: string -> Number, default: Number): (n: Number)
    ensures TextField(e, tag).None? ==> n == default
    ensures TextField(e, tag).Some? ==> n == parse(TextField(e, tag).value)
  {
    match TextField(e, tag)
    case None => default
    case Some(t) => parse(t)
  }

  /** `parseInt(text, 10)`, the parser used for widths and the fill/outline flags. */
  function ParseDecimal(t: string): Number {
    ParseInt(t, 10)
  }

  /** A colour field: the field's KML colour converted to `#rrggbb`, or `default`. */
  function ColorField(e: Element, tag: string, default: string): (c: string)
    ensures TextField(e, tag).None? ==> c == default
    ensures TextField(e, tag).Some? ==> c == ConvertKmlToHex(TextField(e, tag).value) && |c| == 7 && c[0] == '#'
  {
    match TextField(e, tag)
    case None => default
    case Some(t) => ConvertKmlToHex(t)
  }

  /** A flag field: `parseInt(text, 10) !== 0`, or true when the field is absent or empty
      (so any text that does not parse, NaN, also reads as true). */
  function FlagField(e: Element, tag: string): (b: bool)
    ensures TextField(e, tag).None? ==> b
    ensures TextField(e, tag).Some? ==> (b <==> NotZero(ParseDecimal(TextField(e, tag).value)))
  {
    match TextField(e, tag)
    case None => true
    case Some(t) => NotZero(ParseDecimal(t))
  }

  /** The icon URL of an `IconStyle`: the trimmed text of its first `Icon`'s first `href`, or "". */
  function IconUrl(icon: Element): string {
    match FirstByTag(icon, "Icon")
    case None => ""
    case Some(link) => TextField(link, "href").GetOr("")
  }

  /** The label colour and scale: read from the `LabelStyle` when there is one, defaults otherwise. */
  function LabelColor(labelEl: Option<Element>): string {
    if labelEl.Some? then ColorField(labelEl.value, "color", "#000000") else "#000000"
  }

  function LabelScale(labelEl: Option<Element>, parseFloat: string -> Number): Number {
    if labelEl.Some? then NumberField(labelEl.value, "scale", parseFloat, Num(1.0)) else Num(1.0)
  }

  /** The point record of the `i`-th Style element `e`, present exactly when `e` has an `IconStyle`. */
  function PointOf(e: Element, i: nat, parseFloat: string -> Number): (r: Option<PointStyle>)
    ensures r.Some? <==> FirstByTag(e, "IconStyle").Some?
    ensures r.Some? ==> r.value.id == StyleId(e, i)
    ensures r.Some? ==> (r.value.labelEnabled <==> FirstByTag(e, "LabelStyle").Some?)
    ensures r.Some? && FirstByTag(e, "LabelStyle").None? ==>
              r.value.labelColor == "#000000" && r.value.labelScale == Num(1.0)
  {
    match FirstByTag(e, "IconStyle")
    case None => None
    case Some(icon) =>
      var labelEl := FirstByTag(e, "LabelStyle");
      Some(PointStyle(
        StyleId(e, i),
        IconUrl(icon),
        NumberField(icon, "scale", parseFloat, Num(1.0)),
        NumberField(icon, "heading", parseFloat, Num(0.0)),
        ColorField(icon, "color", "#ffffff"),
        labelEl.Some?,
        LabelColor(labelEl),
        LabelScale(labelEl, parseFloat)))
  }

  /** The line record of the `i`-th Style element, present exactly when it has a `LineStyle`
      (whether or not it also has a `PolyStyle`). */
  function LineOf(e: Element, i: nat): (r: Option<LineStyle>)
    ensures r.Some? <==> FirstByTag(e, "LineStyle").Some?
    ensures r.Some? ==> r.value.id == StyleId(e, i)
  {
    match FirstByTag(e, "LineStyle")
    case None => None
    case Some(line) =>
      Some(LineStyle(StyleId(e, i), ColorField(line, "color", "#000000"), NumberField(line, "width", ParseDecimal, Num(1.0))))
  }

  /** The polygon record of the `i`-th Style element, present exactly when it has a `PolyStyle`;
      its outline colour and width come from the element's `LineStyle` when there is one. */
  function PolygonOf(e: Element, i: nat): (r: Option<PolygonStyle>)
    ensures r.Some? <==> FirstByTag(e, "PolyStyle").Some?
    ensures r.Some? ==> r.value.id == StyleId(e, i)
    ensures r.Some? && FirstByTag(e, "LineStyle").None? ==>
              r.value.lineColor == "#000000" && r.value.lineWidth == Num(1.0)
  {
    match FirstByTag(e, "PolyStyle")
    case None => None
    case Some(poly) =>
      var line := FirstByTag(e, "LineStyle");
      Some(PolygonStyle(
        StyleId(e, i),
        ColorField(poly, "color", "#ffffff"),
        match TextField(poly, "color") case None => Num(1.0) case Some(t) => ExtractAlpha(t),
        FlagField(poly, "fill"),
        FlagField(poly, "outline"),
        if line.Some? then ColorField(line.value, "color", "#000000") else "#000000",
        if line.Some? then NumberField(line.value, "width", ParseDecimal, Num(1.0)) else Num(1.0)))
  }

  /** The per-element readers, as values that `Collect` can take. */
  function PointReader(parseFloat: string -> Number): (Element, nat) -> Option<PointStyle> {
    (e: Element, i: nat) => PointOf(e, i, parseFloat)
  }

  function LineReader(): (Element, nat) -> Option<LineStyle> {
    (e: Element, i: nat) => LineOf(e, i)
  }

  function PolygonReader(): (Element, nat) -> Option<PolygonStyle> {
    (e: Element, i: nat) => PolygonOf(e, i)
  }

  /** The records `read` yields for the Style elements `styles`, in document order
      (defined from the back, as the loop in `readKmlStyles` pushes them). */
  function Collect<T>(styles: seq<Element>, read: (Element, nat) -> Option<T>): (r: seq<T>)
    ensures |r| <= |styles|
  {
    if |styles| == 0 then []
    else
      var last := |styles| - 1;
      Collect(styles[..last], read) + match read(styles[last], last) case Some(x) => [x] case None => []
  }

  /** The positions of the Style elements that yield a record, in increasing order. */
  function Hits<T>(styles: seq<Element>, read: (Element, nat) -> Option<T>): seq<nat> {
    if |styles| == 0 then []
    else
      var last := |styles| - 1;
      Hits(styles[..last], read) + if read(styles[last], last).Some? then [last] else []
  }

  predicate StrictlyIncreasing(s: seq<nat>) {
    forall a, b :: 0 <= a < b < |s| ==> s[a] < s[b]
  }

  /** One more Style element adds its record, if it yields one, at the end. */
  lemma CollectStep<T>(styles: seq<Element>, i: nat, read: (Element, nat) -> Option<T>)
    requires i < |styles|
    ensures Collect(styles[..i + 1], read)
         == Collect(styles[..i], read) + match read(styles[i], i) case Some(x) => [x] case None => []
  {
    assert styles[..i + 1][..i] == styles[..i];
  }

  lemma {:induction false} HitsIncreasing<T>(styles: seq<Element>, read: (Element, nat) -> Option<T>)
    ensures var h := Hits(styles, read);
            && StrictlyIncreasing(h)
            && (forall k :: 0 <= k < |h| ==> h[k] < |styles|)
  {
    if |styles| > 0 {
      HitsIncreasing(styles[..|styles| - 1], read);
    }
  }

  lemma {:induction false} CollectHitsLength<T>(styles: seq<Element>, read: (Element, nat) -> Option<T>)
    ensures |Collect(styles, read)| == |Hits(styles, read)|
  {
    if |styles| > 0 {
      CollectHitsLength(styles[..|styles| - 1], read);
    }
  }

  lemma {:induction false} CollectAtHits<T>(styles: seq<Element>, read: (Element, nat) -> Option<T>)
    ensures var r, h := Collect(styles, read), Hits(styles, read);
            |r| == |h| && forall k :: 0 <= k < |h| ==> h[k] < |styles| && read(styles[h[k]], h[k]) == Some(r[k])
  {
    CollectHitsLength(styles, read);
    HitsIncreasing(styles, read);
    if |styles| > 0 {
      var last := |styles| - 1;
      var prefix := styles[..last];
      CollectAtHits(prefix, read);
      HitsIncreasing(prefix, read);
      var r, h := Collect(styles, read), Hits(styles, read);
      var r', h' := Collect(prefix, read), Hits(prefix, read);
      forall k | 0 <= k < |h'|
        ensures read(styles[h[k]], h[k]) == Some(r[k])
      {
        assert h[k] == h'[k] && r[k] == r'[k];
        assert styles[h[k]] == prefix[h[k]];
      }
    }
  }

  lemma {:induction false} HitsComplete<T>(styles: seq<Element>, read: (Element, nat) -> Option<T>)
    ensures forall j :: 0 <= j < |styles| && read(styles[j], j).Some? ==> j in Hits(styles, read)
  {
    if |styles| > 0 {
      var last := |styles| - 1;
      var prefix := styles[..last];
      HitsComplete(prefix, read);
      forall j | 0 <= j < last && read(styles[j], j).Some? ensures j in Hits(styles, read) {
        assert styles[j] == prefix[j];
      }
    }
  }

  /**
    `Collect` keeps exactly the records of the elements that yield one, in
    document order: its `k`-th record is the record of element `Hits[k]`, the
    hit positions increase, and every element that yields a record is a hit.
  */
  lemma CollectIsInOrder<T>(styles: seq<Element>, read: (Element, nat) -> Option<T>)
    ensures var r, h := Collect(styles, read), Hits(styles, read);
            && |r| == |h|
            && StrictlyIncreasing(h)
            && (forall k :: 0 <= k < |h| ==> h[k] < |styles| && read(styles[h[k]], h[k]) == Some(r[k]))
            && (forall j :: 0 <= j < |styles| && read(styles[j], j).Some? ==> j in h)
  {
    HitsIncreasing(styles, read);
    CollectAtHits(styles, read);
    HitsComplete(styles, read);
  }

  /** The number of records is the number of elements that yield one. */
  lemma CollectCount<T>(styles: seq<Element>, read: (Element, nat) -> Option<T>)
    ensures |Collect(styles, read)| == |set j | 0 <= j < |styles| && read(styles[j], j).Some?|
  {
    CollectIsInOrder(styles, read);
    var h := Hits(styles, read);
    var hits := set j | 0 <= j < |styles| && read(styles[j], j).Some?;
    assert hits == set k | 0 <= k < |h| :: h[k];
    DistinctCount(h);
  }

  /** A strictly increasing sequence has as many elements as its set of values. */
  lemma {:induction false} DistinctCount(h: seq<nat>)
    requires StrictlyIncreasing(h)
    ensures |set k | 0 <= k < |h| :: h[k]| == |h|
  {
    if |h| > 0 {
      var last := |h| - 1;
      DistinctCount(h[..last]);
      var before := set k | 0 <= k < last :: h[..last][k];
      var all := set k | 0 <= k < |h| :: h[k];
      assert all == before + {h[last]};
      assert h[last] !in before;
    }
  }

  // ---------------------------------------------------------------------------
  // Facts about single Style elements

  /** Without an `id` attribute the synthetic id is `style_` followed by the 1-based position,
      which reads back as that position. */
  lemma SyntheticIdIsOneBased(e: Element, i: nat)
    requires !HasOwnId(e)
    ensures |StyleId(e, i)| > 6 && StyleId(e, i)[..6] == "style_"
    ensures ParseInt(StyleId(e, i)[6..], 10) == Num((i + 1) as real)
  {
    var id := StyleId(e, i);
    assert id[6..] == NatToString(i + 1);
    NatToStringParses(i + 1);
  }

  /** Two Style elements at different positions that lack an `id` get different ids. */
  lemma SyntheticIdsDiffer(e1: Element, i: nat, e2: Element, j: nat)
    requires !HasOwnId(e1) && !HasOwnId(e2) && i != j
    ensures StyleId(e1, i) != StyleId(e2, j)
  {
    if StyleId(e1, i) == StyleId(e2, j) {
      assert StyleId(e1, i)[6..] == NatToString(i + 1);
      assert StyleId(e2, j)[6..] == NatToString(j + 1);
      NatToStringInjective(i + 1, j + 1);
    }
  }

  /**
    A Style element with both a `LineStyle` and a `PolyStyle` yields a line
    record and a polygon record, both with its id, and the polygon's outline
    is the line record's colour and width.
  */
  lemma LineAndPolygonFromOneStyle(e: Element, i: nat)
    requires FirstByTag(e, "LineStyle").Some? && FirstByTag(e, "PolyStyle").Some?
    ensures LineOf(e, i).Some? && PolygonOf(e, i).Some?
    ensures LineOf(e, i).value.id == PolygonOf(e, i).value.id == StyleId(e, i)
    ensures PolygonOf(e, i).value.lineColor == LineOf(e, i).value.lineColor
    ensures PolygonOf(e, i).value.lineWidth == LineOf(e, i).value.lineWidth
  {
  }

  /** An `IconStyle` with no child elements and no `LabelStyle` gives the default point record. */
  lemma EmptyIconStyleGivesDefaults(e: Element, i: nat, parseFloat: string -> Number)
    requires FirstByTag(e, "IconStyle").Some? && FirstByTag(e, "IconStyle").value.children == []
    requires FirstByTag(e, "LabelStyle").None?
    ensures PointOf(e, i, parseFloat) == Some(DefaultPoint(StyleId(e, i)))
  {
  }

  /** A `LineStyle` with no child elements gives the default line record. */
  lemma EmptyLineStyleGivesDefaults(e: Element, i: nat)
    requires FirstByTag(e, "LineStyle").Some? && FirstByTag(e, "LineStyle").value.children == []
    ensures LineOf(e, i) == Some(DefaultLine(StyleId(e, i)))
  {
  }

  /**
    A `PolyStyle` with no child elements, beside either no `LineStyle` or one
    with no child elements, gives the default polygon record: white, opaque,
    filled and outlined in black with width 1.
  */
  lemma EmptyPolyStyleGivesDefaults(e: Element, i: nat)
    requires FirstByTag(e, "PolyStyle").Some? && FirstByTag(e, "PolyStyle").value.children == []
    requires FirstByTag(e, "LineStyle").Some? ==> FirstByTag(e, "LineStyle").value.children == []
    ensures PolygonOf(e, i) == Some(DefaultPolygon(StyleId(e, i)))
  {
  }

  /** A polygon's fill opacity, read from a colour whose alpha byte is two hex digits, lies in [0, 1]. */
  lemma PolygonOpacityInRange(e: Element, i: nat)
    requires PolygonOf(e, i).Some?
    requires var t := TextField(FirstByTag(e, "PolyStyle").value, "color");
             t.Some? && |t.value| == 8 && IsHexDigit(t.value[0]) && IsHexDigit(t.value[1])
    ensures var o := PolygonOf(e, i).value.fillOpacity; o.Num? && 0.0 <= o.value <= 1.0
  {
  }
}
