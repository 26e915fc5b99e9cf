/**
  The editor's state, `styleData`: the point, line and polygon style records
  read from the loaded KML, and the four operations that change or use it
  step by step: reading the styles of a document, reading the control panel
  back into the records, restyling the map's features, and writing the
  records out as KML.
*/
module StyleEditor {
  import opened Wrappers
  import opened JsRuntime
  import opened KmlTree
  import opened StyleRecords
  import opened StyleParser
  import opened FormUpdate
  import opened StyleResolver
  import opened StyleSerializer

  class StyleData {
    var points: seq<PointStyle>
    var lines: seq<LineStyle>
    var polygons: seq<PolygonStyle>

    /** The empty `styleData` the page starts with. */
    constructor()
      ensures points == [] && lines == [] && polygons == []
    {
      points, lines, polygons := [], [], [];
    }

    /**
      `readKmlStyles` on a parsed document with root element `root`: the
      records are reset, then every `Style` element, in document order,
      pushes a point, a line and a polygon record for each of the
      `IconStyle`, `LineStyle` and `PolyStyle` it contains.
    */
    method ReadKmlStyles(root: Element, parseFloat: string -> Number)
      modifies this
      ensures points == Collect(StyleElements(root), PointReader(parseFloat))
      ensures lines == Collect(StyleElements(root), LineReader())
      ensures polygons == Collect(StyleElements(root), PolygonReader())
    {
      points, lines, polygons := [], [], [];
      var styles := StyleElements(root);
      var i := 0;
      while i < |styles|
        invariant 0 <= i <= |styles|
        invariant points == Collect(styles[..i], PointReader(parseFloat))
        invariant lines == Collect(styles[..i], LineReader())
        invariant polygons == Collect(styles[..i], PolygonReader())
      {
        var styleElement := styles[i];
        CollectStep(styles, i, PointReader(parseFloat));
        CollectStep(styles, i, LineReader());
        CollectStep(styles, i, PolygonReader());
        var point := PointOf(styleElement, i, parseFloat);
        if point.Some? {
          points := points + [point.value];
        }
        var line := LineOf(styleElement, i);
        if line.Some? {
          lines := lines + [line.value];
        }
        var polygon := PolygonOf(styleElement, i);
        if polygon.Some? {
          polygons := polygons + [polygon.value];
        }
        i := i + 1;
      }
      assert styles[..i] == styles;
    }

    /**
      `updateStyleDataFromForm`: record `k` of each kind is overwritten from
      the inputs numbered `k`. The panel must have inputs for every record
      (the source reads them by id and fails on a missing one).
    */
    method UpdateStyleDataFromForm(form: Form, parseFloat: string -> Number)
      requires |form.points| >= |points| && |form.lines| >= |lines| && |form.polygons| >= |polygons|
      modifies this
      ensures |points| == |old(points)| && |lines| == |old(lines)| && |polygons| == |old(polygons)|
      ensures forall k :: 0 <= k < |points| ==> points[k] == ApplyPointForm(old(points)[k], form.points[k], parseFloat)
      ensures forall k :: 0 <= k < |lines| ==> lines[k] == ApplyLineForm(old(lines)[k], form.lines[k])
      ensures forall k :: 0 <= k < |polygons| ==> polygons[k] == ApplyPolygonForm(old(polygons)[k], form.polygons[k], parseFloat)
    {
      var k := 0;
      while k < |points|
        invariant 0 <= k <= |points| == |old(points)|
        invariant forall j :: 0 <= j < k ==> points[j] == ApplyPointForm(old(points)[j], form.points[j], parseFloat)
        invariant forall j :: k <= j < |points| ==> points[j] == old(points)[j]
        invariant lines == old(lines) && polygons == old(polygons)
      {
        points := points[k := ApplyPointForm(points[k], form.points[k], parseFloat)];
        k := k + 1;
      }
      k := 0;
      while k < |lines|
        invariant 0 <= k <= |lines| == |old(lines)|
        invariant forall j :: 0 <= j < k ==> lines[j] == ApplyLineForm(old(lines)[j], form.lines[j])
        invariant forall j :: k <= j < |lines| ==> lines[j] == old(lines)[j]
        invariant polygons == old(polygons) && |points| == |old(points)|
        invariant forall j :: 0 <= j < |points| ==> points[j] == ApplyPointForm(old(points)[j], form.points[j], parseFloat)
      {
        lines := lines[k := ApplyLineForm(lines[k], form.lines[k])];
        k := k + 1;
      }
      k := 0;
      while k < |polygons|
        invariant 0 <= k <= |polygons| == |old(polygons)|
        invariant forall j :: 0 <= j < k ==> polygons[j] == ApplyPolygonForm(old(polygons)[j], form.polygons[j], parseFloat)
        invariant forall j :: k <= j < |polygons| ==> polygons[j] == old(polygons)[j]
        invariant |points| == |old(points)| && |lines| == |old(lines)|
        invariant forall j :: 0 <= j < |points| ==> points[j] == ApplyPointForm(old(points)[j], form.points[j], parseFloat)
        invariant forall j :: 0 <= j < |lines| ==> lines[j] == ApplyLineForm(old(lines)[j], form.lines[j])
      {
        polygons := polygons[k := ApplyPolygonForm(polygons[k], form.polygons[k], parseFloat)];
        k := k + 1;
      }
    }

    /** The `styleMap` of `updateStyle`: points, then lines, then polygons, each entry replacing any before it. */
    method BuildStyleTable() returns (table: map<string, RenderStyle>)
      ensures table == StyleTable(points, lines, polygons)
    {
      table := map[];
      var k := 0;
      while k < |points|
        invariant 0 <= k <= |points|
        invariant table == InsertAll(map[], points[..k], PointKey, PointRender)
      {
        assert points[..k + 1][..k] == points[..k];
        table := table[points[k].id := PointRender(points[k])];
        k := k + 1;
      }
      assert points[..k] == points;
      ghost var afterPoints := table;
      k := 0;
      while k < |lines|
        invariant 0 <= k <= |lines|
        invariant table == InsertAll(afterPoints, lines[..k], LineKey, LineRender)
      {
        assert lines[..k + 1][..k] == lines[..k];
        table := table[lines[k].id := LineRender(lines[k])];
        k := k + 1;
      }
      assert lines[..k] == lines;
      ghost var afterLines := table;
      k := 0;
      while k < |polygons|
        invariant 0 <= k <= |polygons|
        invariant table == InsertAll(afterLines, polygons[..k], PolygonKey, PolygonRender)
      {
        assert polygons[..k + 1][..k] == polygons[..k];
        table := table[polygons[k].id := PolygonRender(polygons[k])];
        k := k + 1;
      }
      assert polygons[..k] == polygons;
    }

    /** `styleDataToKml`: the fragments of all point records, then all line records, then all polygon records. */
    method StyleDataToKml(show: Number -> string) returns (kmlStyles: string)
      ensures kmlStyles == StylesKml(points, lines, polygons, show)
    {
      kmlStyles := AppendPointsKml("", show);
      kmlStyles := AppendLinesKml(kmlStyles, show);
      kmlStyles := AppendPolygonsKml(kmlStyles, show);
      assert "" + PointsKml(points, show) == PointsKml(points, show);
    }

    /** The `styleData.points.forEach` of `styleDataToKml`: three appends per record. */
    method AppendPointsKml(start: string, show: Number -> string) returns (kmlStyles: string)
      ensures kmlStyles == start + PointsKml(points, show)
    {
      kmlStyles := start;
      var k := 0;
      while k < |points|
        invariant 0 <= k <= |points|
        invariant kmlStyles == start + PointsKml(points[..k], show)
      {
        kmlStyles := AppendPointKml(kmlStyles, points[k], show);
        AppendOne(start, PointsKml(points[..k], show), PointKml(points[k], show));
        PointsKmlStep(points, k, show);
        k := k + 1;
      }
      assert points[..k] == points;
    }

    /** The `styleData.lines.forEach` of `styleDataToKml`: one append per record. */
    method AppendLinesKml(start: string, show: Number -> string) returns (kmlStyles: string)
      ensures kmlStyles == start + LinesKml(lines, show)
    {
      kmlStyles := start;
      var k := 0;
      while k < |lines|
        invariant 0 <= k <= |lines|
        invariant kmlStyles == start + LinesKml(lines[..k], show)
      {
        var fragment := LineKml(lines[k], show);
        kmlStyles := kmlStyles + fragment;
        AppendOne(start, LinesKml(lines[..k], show), fragment);
        LinesKmlStep(lines, k, show);
        k := k + 1;
      }
      assert lines[..k] == lines;
    }

    /** The `styleData.polygons.forEach` of `styleDataToKml`: the outline is appended only when enabled. */
    method AppendPolygonsKml(start: string, show: Number -> string) returns (kmlStyles: string)
      ensures kmlStyles == start + PolygonsKml(polygons, show)
    {
      kmlStyles := start;
      var k := 0;
      while k < |polygons|
        invariant 0 <= k <= |polygons|
        invariant kmlStyles == start + PolygonsKml(polygons[..k], show)
      {
        kmlStyles := AppendPolygonKml(kmlStyles, polygons[k], show);
        AppendOne(start, PolygonsKml(polygons[..k], show), PolygonKml(polygons[k], show));
        PolygonsKmlStep(polygons, k, show);
        k := k + 1;
      }
      assert polygons[..k] == polygons;
    }
  }

  /** The body of the point loop of `styleDataToKml`: three appends that together add the record's fragment. */
  method AppendPointKml(s: string, p: PointStyle, show: Number -> string) returns (r: string)
    ensures r == s + PointKml(p, show)
  {
    var opening := StyleOpen(p.id) + IconStyleKml(p, show);
    var labelPart := LabelStyleKml(p, show);
    r := s + opening;
    r := r + labelPart;
    r := r + StyleClose;
    AppendThree(s, opening, labelPart, StyleClose);
  }

  /** The body of the polygon loop: the opening, the outline only when there is one, and the closing line. */
  method AppendPolygonKml(s: string, q: PolygonStyle, show: Number -> string) returns (r: string)
    ensures r == s + PolygonKml(q, show)
  {
    var opening := StyleOpen(q.id) + PolyStyleKml(q);
    r := s + opening;
    ghost var withOpening := r;
    OutlineKmlCases(q, show);
    if q.polyOutline {
      r := r + LineStyleKml(q.lineColor, q.lineWidth, show);
    } else {
      AppendEmpty(withOpening);
    }
    assert r == withOpening + OutlineKml(q, show);
    r := r + StyleClose;
    AppendThree(s, opening, OutlineKml(q, show), StyleClose);
  }

  /** Appending three pieces one after another appends their concatenation. */
  lemma AppendThree(s: string, a: string, b: string, c: string)
    ensures s + a + b + c == s + (a + b + c)
  {
  }

  lemma AppendOne(s: string, a: string, b: string)
    ensures s + a + b == s + (a + b)
  {
  }

  lemma AppendEmpty(s: string)
    ensures s + "" == s
  {
  }

  lemma OutlineKmlCases(q: PolygonStyle, show: Number -> string)
    ensures q.polyOutline ==> OutlineKml(q, show) == LineStyleKml(q.lineColor, q.lineWidth, show)
    ensures !q.polyOutline ==> OutlineKml(q, show) == ""
  {
  }

  /** One more point record appends its fragment. */
  lemma PointsKmlStep(ps: seq<PointStyle>, k: nat, show: Number -> string)
    requires k < |ps|
    ensures PointsKml(ps[..k + 1], show) == PointsKml(ps[..k], show) + PointKml(ps[k], show)
  {
    assert ps[..k + 1][..k] == ps[..k];
  }

  lemma LinesKmlStep(ls: seq<LineStyle>, k: nat, show: Number -> string)
    requires k < |ls|
    ensures LinesKml(ls[..k + 1], show) == LinesKml(ls[..k], show) + LineKml(ls[k], show)
  {
    assert ls[..k + 1][..k] == ls[..k];
  }

  lemma PolygonsKmlStep(qs: seq<PolygonStyle>, k: nat, show: Number -> string)
    requires k < |qs|
    ensures PolygonsKml(qs[..k + 1], show) == PolygonsKml(qs[..k], show) + PolygonKml(qs[k], show)
  {
    assert qs[..k + 1][..k] == qs[..k];
  }

  /**
    The feature loop of `updateStyle`: each feature is restyled from the
    table, in place, with the own-key lookup of `ResolveFeature`.
  */
  method ApplyStyles(table: map<string, RenderStyle>, features: array<Feature>)
    modifies features
    ensures forall k :: 0 <= k < features.Length ==> features[k] == ResolveFeature(table, old(features[k]))
  {
    var k := 0;
    while k < features.Length
      invariant 0 <= k <= features.Length
      invariant forall j :: 0 <= j < k ==> features[j] == ResolveFeature(table, old(features[j]))
      invariant forall j :: k <= j < features.Length ==> features[j] == old(features[j])
    {
      features[k] := ResolveFeature(table, features[k]);
      k := k + 1;
    }
  }

  /**
    `updateStyle`: read the control panel into the records, build the style
    table from the updated records, and restyle every feature from it.
  */
  method UpdateStyle(data: StyleData, form: Form, parseFloat: string -> Number, features: array<Feature>)
    requires |form.points| >= |data.points| && |form.lines| >= |data.lines| && |form.polygons| >= |data.polygons|
    modifies data, features
    ensures |data.points| == |old(data.points)| && |data.lines| == |old(data.lines)| && |data.polygons| == |old(data.polygons)|
    ensures forall k :: 0 <= k < |data.points| ==> data.points[k] == ApplyPointForm(old(data.points)[k], form.points[k], parseFloat)
    ensures forall k :: 0 <= k < |data.lines| ==> data.lines[k] == ApplyLineForm(old(data.lines)[k], form.lines[k])
    ensures forall k :: 0 <= k < |data.polygons| ==> data.polygons[k] == ApplyPolygonForm(old(data.polygons)[k], form.polygons[k], parseFloat)
    ensures forall k :: 0 <= k < features.Length ==>
              features[k] == ResolveFeature(StyleTable(data.points, data.lines, data.polygons), old(features[k]))
  {
    data.UpdateStyleDataFromForm(form, parseFloat);
    var table := data.BuildStyleTable();
    ApplyStyles(table, features);
  }
}
