/**
  Rendering styles and attaching them to map features (the core of
  `updateStyle`): each style record becomes a rendering style, all of them go
  into one table keyed by style id (points first, then lines, then polygons,
  so a later record with the same id replaces an earlier one), and every
  feature whose `styleUrl` names an id in the table gets that style, with the
  label text replaced by the feature's name.
*/
module StyleResolver {
  import opened Wrappers
  import opened JsRuntime
  import opened ColorCodec
  import opened StyleRecords

  /** `ol.style.Icon` options: source, scale and heading (in degrees; the conversion to radians is not modelled). */
  datatype Icon = Icon(src: string, scale: Number, heading: Number)

  /** `ol.style.Stroke`: a colour and a width. */
  datatype Stroke = Stroke(color: string, width: Number)

  /** `ol.style.Text`: the label text, its scale (the font is `12 * scale` px), fill colour, halo and offset. */
  datatype TextStyle = TextStyle(text: string, scale: Number, color: string, halo: Stroke, offsetY: int)

  /** `ol.style.Style`: the parts a style may have; absent parts are `null`/`undefined`. */
  datatype RenderStyle = RenderStyle(image: Option<Icon>, text: Option<TextStyle>, fill: Option<Rgba>, stroke: Option<Stroke>)

  /** A map feature: its `styleUrl` and `name` properties and the style set on it. */
  datatype Feature = Feature(styleUrl: Option<string>, name: Option<string>, style: Option<RenderStyle>)

  /** The placeholder text a point style's label carries until a feature's name replaces it. */
  const NamePlaceholder: string := "${name}"

  /** The white halo drawn around label text. */
  const LabelHalo: Stroke := Stroke("#ffffff", Num(2.0))

  /** The rendering style of a point record: its icon, and a label exactly when the label is enabled. */
  function PointRender(p: PointStyle): (s: RenderStyle)
    ensures s.image == Some(Icon(p.iconUrl, p.iconScale, p.iconHeading))
    ensures s.text.Some? <==> p.labelEnabled
    ensures s.text.Some? ==> s.text.value == TextStyle(NamePlaceholder, p.labelScale, p.labelColor, LabelHalo, -15)
    ensures s.fill.None? && s.stroke.None?
  {
    RenderStyle(
      Some(Icon(p.iconUrl, p.iconScale, p.iconHeading)),
      if p.labelEnabled then Some(TextStyle(NamePlaceholder, p.labelScale, p.labelColor, LabelHalo, -15)) else None,
      None,
      None)
  }

  /** The rendering style of a line record: a stroke only. */
  function LineRender(l: LineStyle): (s: RenderStyle)
    ensures s.image.None? && s.text.None? && s.fill.None?
    ensures s.stroke == Some(Stroke(l.lineColor, l.lineWidth))
  {
    RenderStyle(None, None, None, Some(Stroke(l.lineColor, l.lineWidth)))
  }

  /** The rendering style of a polygon record: a fill when filled, an outline stroke when outlined. */
  function PolygonRender(q: PolygonStyle): (s: RenderStyle)
    ensures s.image.None? && s.text.None?
    ensures s.fill.Some? <==> q.polyFill
    ensures s.fill.Some? ==> s.fill.value == HexToRgba(q.fillColor, q.fillOpacity)
    ensures s.stroke.Some? <==> q.polyOutline
    ensures s.stroke.Some? ==> s.stroke.value == Stroke(q.lineColor, q.lineWidth)
  {
    RenderStyle(
      None,
      None,
      if q.polyFill then Some(HexToRgba(q.fillColor, q.fillOpacity)) else None,
      if q.polyOutline then Some(Stroke(q.lineColor, q.lineWidth)) else None)
  }

  // ---------------------------------------------------------------------------
  // The style table

  /** `recs.forEach(r => table[key(r)] = render(r))` starting from `table`. */
  function InsertAll<T>(table: map<string, RenderStyle>, recs: seq<T>, key: T -> string, render: T -> RenderStyle): map<string, RenderStyle> {
    if |recs| == 0 then table
    else
      var last := |recs| - 1;
      InsertAll(table, recs[..last], key, render)[key(recs[last]) := render(recs[last])]
  }

  /** After inserting `recs`, an id is in the table exactly when it was before or some record has it. */
  lemma {:induction false} InsertAllDomain<T>(table: map<string, RenderStyle>, recs: seq<T>, key: T -> string,
                                              render: T -> RenderStyle, id: string)
    ensures id in InsertAll(table, recs, key, render) <==> id in table || exists k :: 0 <= k < |recs| && key(recs[k]) == id
  {
    if |recs| > 0 {
      var last := |recs| - 1;
      var prefix := recs[..last];
      InsertAllDomain(table, prefix, key, render, id);
      if exists k :: 0 <= k < |recs| && key(recs[k]) == id {
        var k :| 0 <= k < |recs| && key(recs[k]) == id;
        if k < last {
          assert prefix[k] == recs[k];
        }
      }
      if exists k :: 0 <= k < |prefix| && key(prefix[k]) == id {
        var k :| 0 <= k < |prefix| && key(prefix[k]) == id;
        assert prefix[k] == recs[k];
      }
    }
  }

  /** An id no record has keeps its old entry. */
  lemma {:induction false} InsertAllUntouched<T>(table: map<string, RenderStyle>, recs: seq<T>, key: T -> string,
                                                 render: T -> RenderStyle, id: string)
    requires forall k :: 0 <= k < |recs| ==> key(recs[k]) != id
    ensures id in table ==> id in InsertAll(table, recs, key, render) && InsertAll(table, recs, key, render)[id] == table[id]
  {
    if |recs| > 0 {
      var prefix := recs[..|recs| - 1];
      assert forall k :: 0 <= k < |prefix| ==> prefix[k] == recs[k];
      InsertAllUntouched(table, prefix, key, render, id);
    }
  }

  /** The entry of an id is the rendering of the last record that has it. */
  lemma {:induction false} InsertAllLast<T>(table: map<string, RenderStyle>, recs: seq<T>, key: T -> string,
                                            render: T -> RenderStyle, id: string, k: nat)
    requires k < |recs| && key(recs[k]) == id
    requires forall j :: k < j < |recs| ==> key(recs[j]) != id
    ensures id in InsertAll(table, recs, key, render) && InsertAll(table, recs, key, render)[id] == render(recs[k])
  {
    var last := |recs| - 1;
    if k < last {
      var prefix := recs[..last];
      assert prefix[k] == recs[k];
      assert forall j :: k < j < |prefix| ==> prefix[j] == recs[j];
      InsertAllLast(table, prefix, key, render, id, k);
    }
  }

  /**
    After inserting `recs`, an id is in the table exactly when it was before
    or some record has it, and its entry is the rendering of the LAST record
    with that id, or the old entry when no record has it.
  */
  lemma InsertAllLookup<T>(table: map<string, RenderStyle>, recs: seq<T>, key: T -> string,
                           render: T -> RenderStyle, id: string)
    ensures var t := InsertAll(table, recs, key, render);
            && (id in t <==> id in table || exists k :: 0 <= k < |recs| && key(recs[k]) == id)
            && ((forall k :: 0 <= k < |recs| ==> key(recs[k]) != id) ==> id in t ==> t[id] == table[id])
            && (forall k :: 0 <= k < |recs| && key(recs[k]) == id && (forall j :: k < j < |recs| ==> key(recs[j]) != id)
                  ==> id in t && t[id] == render(recs[k]))
  {
    InsertAllDomain(table, recs, key, render, id);
    if forall k :: 0 <= k < |recs| ==> key(recs[k]) != id {
      InsertAllUntouched(table, recs, key, render, id);
    }
    forall k | 0 <= k < |recs| && key(recs[k]) == id && (forall j :: k < j < |recs| ==> key(recs[j]) != id)
      ensures id in InsertAll(table, recs, key, render) && InsertAll(table, recs, key, render)[id] == render(recs[k])
    {
      InsertAllLast(table, recs, key, render, id, k);
    }
  }


  function PointKey(p: PointStyle): string { p.id }
  function LineKey(l: LineStyle): string { l.id }
  function PolygonKey(q: PolygonStyle): string { q.id }

  /** The table `updateStyle` builds: points, then lines, then polygons; later entries win. */
  function StyleTable(points: seq<PointStyle>, lines: seq<LineStyle>, polygons: seq<PolygonStyle>): map<string, RenderStyle> {
    var t1 := InsertAll(map[], points, PointKey, PointRender);
    var t2 := InsertAll(t1, lines, LineKey, LineRender);
    InsertAll(t2, polygons, PolygonKey, PolygonRender)
  }

  /** `k` is the last position of a record with id `id`. */
  ghost predicate LastWithId<T>(recs: seq<T>, key: T -> string, id: string, k: int) {
    0 <= k < |recs| && key(recs[k]) == id && forall j :: k < j < |recs| ==> key(recs[j]) != id
  }

  /**
    Which record a style id resolves to: the last polygon with that id if
    there is one; otherwise the last line with it; otherwise the last point
    with it; and an id no record carries is not in the table.
  */
  lemma StyleTableLookup(points: seq<PointStyle>, lines: seq<LineStyle>, polygons: seq<PolygonStyle>, id: string)
    ensures var t := StyleTable(points, lines, polygons);
            && (forall k :: LastWithId(polygons, PolygonKey, id, k) ==> id in t && t[id] == PolygonRender(polygons[k]))
            && ((forall k :: 0 <= k < |polygons| ==> polygons[k].id != id) ==>
                  forall k :: LastWithId(lines, LineKey, id, k) ==> id in t && t[id] == LineRender(lines[k]))
            && ((forall k :: 0 <= k < |polygons| ==> polygons[k].id != id) && (forall k :: 0 <= k < |lines| ==> lines[k].id != id) ==>
                  forall k :: LastWithId(points, PointKey, id, k) ==> id in t && t[id] == PointRender(points[k]))
            && (id in t <==>
                  || (exists k :: 0 <= k < |points| && points[k].id == id)
                  || (exists k :: 0 <= k < |lines| && lines[k].id == id)
                  || (exists k :: 0 <= k < |polygons| && polygons[k].id == id))
  {
    var t1 := InsertAll(map[], points, PointKey, PointRender);
    var t2 := InsertAll(t1, lines, LineKey, LineRender);
    InsertAllLookup(map[], points, PointKey, PointRender, id);
    InsertAllLookup(t1, lines, LineKey, LineRender, id);
    InsertAllLookup(t2, polygons, PolygonKey, PolygonRender, id);
  }

  // ---------------------------------------------------------------------------
  // Features

  /** `s.split('#').pop()`: the text after the last `#`, or all of `s` when it has none. */
  function AfterLastHash(s: string): (r: string)
    ensures |r| <= |s| && '#' !in r
  {
    if |s| == 0 then ""
    else if s[|s| - 1] == '#' then ""
    else AfterLastHash(s[..|s| - 1]) + [s[|s| - 1]]
  }

  /** A text without `#` is its own style id. */
  lemma {:induction false} AfterLastHashNoHash(q: string)
    requires '#' !in q
    ensures AfterLastHash(q) == q
  {
    if |q| > 0 {
      var init := q[..|q| - 1];
      assert forall k :: 0 <= k < |init| ==> init[k] == q[k];
      AfterLastHashNoHash(init);
      assert init + [q[|q| - 1]] == q;
    }
  }

  /** Both `#id` and `file:///path#id` (and any `p#id`) name the style `id`, provided `id` has no `#`. */
  lemma {:induction false} AfterLastHashOf(p: string, q: string)
    requires '#' !in q
    ensures AfterLastHash(p + "#" + q) == q
  {
    if |q| == 0 {
      assert p + "#" + q == p + "#";
    } else {
      var init := q[..|q| - 1];
      assert forall k :: 0 <= k < |init| ==> init[k] == q[k];
      AfterLastHashOf(p, init);
      assert (p + "#" + q)[..|p + "#" + q| - 1] == p + "#" + init;
      assert init + [q[|q| - 1]] == q;
    }
  }

  /** `feature.get('name') || ''`. */
  function NameOrEmpty(name: Option<string>): string {
    if name.Some? then name.value else ""
  }

  /** The style id a feature refers to, absent when its `styleUrl` is missing or empty. */
  function ReferencedId(f: Feature): (id: Option<string>)
    ensures f.styleUrl.None? || f.styleUrl.value == "" ==> id.None?
    ensures f.styleUrl.Some? && f.styleUrl.value != "" ==> id == Some(AfterLastHash(f.styleUrl.value))
  {
    if f.styleUrl.None? || f.styleUrl.value == "" then None else Some(AfterLastHash(f.styleUrl.value))
  }

  /** The style a feature receives from `s`: `s` itself, or a copy whose label reads the feature's name. */
  function Personalize(s: RenderStyle, f: Feature): RenderStyle {
    if s.text.Some? then s.(text := Some(s.text.value.(text := NameOrEmpty(f.name)))) else s
  }

  /**
    One step of the `forEach` over the features, with the table looked up by
    own key: a feature without a `styleUrl`, or whose id is not in the table,
    is left as it is; otherwise its style becomes the table's entry, with the
    label text set to the feature's name.
  */
  function ResolveFeature(table: map<string, RenderStyle>, f: Feature): (g: Feature)
    ensures g.styleUrl == f.styleUrl && g.name == f.name
    ensures ReferencedId(f).None? ==> g == f
    ensures ReferencedId(f).Some? && ReferencedId(f).value !in table ==> g == f
    ensures ReferencedId(f).Some? && ReferencedId(f).value in table ==>
              var s := table[ReferencedId(f).value];
              && g.style.Some?
              && g.style.value.image == s.image && g.style.value.fill == s.fill && g.style.value.stroke == s.stroke
              && (g.style.value.text.Some? <==> s.text.Some?)
              && (s.text.Some? ==> g.style.value.text.value == s.text.value.(text := NameOrEmpty(f.name)))
  {
    match ReferencedId(f)
    case None => f
    case Some(id) => if id in table then f.(style := Some(Personalize(table[id], f))) else f
  }

  /** Applying the styles a second time changes nothing. */
  lemma ResolveFeatureIdempotent(table: map<string, RenderStyle>, f: Feature)
    ensures ResolveFeature(table, ResolveFeature(table, f)) == ResolveFeature(table, f)
  {
  }

  /** The style a feature gets depends only on its properties, not on the style it had. */
  lemma ResolveFeatureForgetsOldStyle(table: map<string, RenderStyle>, f: Feature, old1: Option<RenderStyle>, old2: Option<RenderStyle>)
    requires ReferencedId(f).Some? && ReferencedId(f).value in table
    ensures ResolveFeature(table, f.(style := old1)) == ResolveFeature(table, f.(style := old2))
  {
  }

  /** A labelled point style gives each feature its own name; two features with the same reference differ only there. */
  lemma LabelledFeaturesShowTheirNames(table: map<string, RenderStyle>, f: Feature, name: string)
    requires ReferencedId(f).Some? && ReferencedId(f).value in table
    requires table[ReferencedId(f).value].text.Some?
    ensures ResolveFeature(table, f.(name := Some(name))).style.value.text.value.text == name
    ensures ResolveFeature(table, f.(name := None)).style.value.text.value.text == ""
  {
  }

  // ---------------------------------------------------------------------------
  // The lookup as written: a plain object keyed by style id

  /**
    The member names every plain JavaScript object inherits from
    `Object.prototype`; `styleMap[id]` for one of these, when no style has
    that id, is an inherited method (or object), not a style.
  */
  const PrototypeNames: set<string> := {
    "constructor", "__defineGetter__", "__defineSetter__", "hasOwnProperty",
    "__lookupGetter__", "__lookupSetter__", "isPrototypeOf", "propertyIsEnumerable",
    "toString", "valueOf", "__proto__", "toLocaleString"
  }

  /**
    The names `styleMap[id]` finds through the prototype chain when no style
    has the id. Assigning a style to the key `__proto__` runs the
    `Object.prototype` setter, so it replaces the object's prototype instead
    of adding a key. After that, the members of that `ol.style.Style` object
    are inherited as well. OpenLayers is not part of this model, so
    `styleMembers(s)` stands for the names under which the style object built
    from `s` holds a truthy value: its fields and its class's methods.
  */
  function InheritedNames(table: map<string, RenderStyle>, styleMembers: RenderStyle -> set<string>): (names: set<string>)
    ensures PrototypeNames <= names
    ensures "__proto__" !in table ==> names == PrototypeNames
    ensures "__proto__" in table ==> styleMembers(table["__proto__"]) <= names
  {
    PrototypeNames + (if "__proto__" in table then styleMembers(table["__proto__"]) else {})
  }

  /** What `styleMap[id]` reads from the object `updateStyle` builds. */
  datatype Lookup = Missing | Found(style: RenderStyle) | Inherited

  /**
    `styleMap[id]`. Reading `__proto__` returns the prototype, which is the
    `__proto__` style itself when there is one, so an own entry of the table
    is found under every id it has.
  */
  function LookupAsWritten(table: map<string, RenderStyle>, id: string, styleMembers: RenderStyle -> set<string>): (r: Lookup)
    ensures id in table ==> r == Found(table[id])
    ensures id !in table ==>
              (r.Inherited? <==> id in PrototypeNames || ("__proto__" in table && id in styleMembers(table["__proto__"])))
    ensures !r.Found? ==> id !in table
  {
    if id in table then Found(table[id])
    else if id in InheritedNames(table, styleMembers) then Inherited
    else Missing
  }

  /** One step of the `forEach` as written: `Failed` when `style.getText()` throws a TypeError. */
  datatype Step = Done(feature: Feature) | Failed

  function ResolveFeatureAsWritten(table: map<string, RenderStyle>, f: Feature, styleMembers: RenderStyle -> set<string>): Step {
    match ReferencedId(f)
    case None => Done(f)
    case Some(id) =>
      match LookupAsWritten(table, id, styleMembers)
      case Missing => Done(f)
      // an inherited member is truthy, but it has no `getText` method
      case Inherited => Failed
      case Found(s) => Done(f.(style := Some(Personalize(s, f))))
  }

  /** Where the id is an own key or is not inherited, both lookups agree. */
  lemma AsWrittenAgreesOffPrototype(table: map<string, RenderStyle>, f: Feature, styleMembers: RenderStyle -> set<string>)
    requires ReferencedId(f).Some? ==>
               || ReferencedId(f).value in table
               || (&& ReferencedId(f).value !in PrototypeNames
                   && ("__proto__" in table ==> ReferencedId(f).value !in styleMembers(table["__proto__"])))
    ensures ResolveFeatureAsWritten(table, f, styleMembers) == Done(ResolveFeature(table, f))
  {
  }

  /**
    A feature whose `styleUrl` is `#toString` while no style has that id makes
    the as-written step throw (which also abandons the features after it),
    where the own-key lookup leaves the feature unchanged.
  */
  lemma PrototypeIdThrows(f: Feature, styleMembers: RenderStyle -> set<string>)
    requires f.styleUrl == Some("#toString")
    ensures ResolveFeatureAsWritten(map[], f, styleMembers) == Failed
    ensures ResolveFeature(map[], f) == f
  {
    AfterLastHashOf("", "toString");
    assert "" + "#" + "toString" == "#toString";
  }

  /**
    Once a style has the id `__proto__`, a reference to any member name of
    that style object, such as `getFill`, makes the as-written step throw when
    no style has that id, where the own-key lookup leaves the feature unchanged.
  */
  lemma ProtoStyleMemberThrows(table: map<string, RenderStyle>, f: Feature, m: string,
                               styleMembers: RenderStyle -> set<string>)
    requires "__proto__" in table && m in styleMembers(table["__proto__"])
    requires m !in table && '#' !in m
    requires f.styleUrl == Some("#" + m)
    ensures ResolveFeatureAsWritten(table, f, styleMembers) == Failed
    ensures ResolveFeature(table, f) == f
  {
    AfterLastHashOf("", m);
    assert "" + "#" + m == "#" + m;
  }
}
