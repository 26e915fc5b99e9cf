/**
  Reading the style control panel back into the style records
  (`updateStyleDataFromForm`). The panel is abstracted as one input record
  per style record, holding the raw `value` text of each input and the
  `checked` state of each checkbox; record `k` of each kind is edited by the
  inputs numbered `k`. This module holds the edit of one record; the loops
  over `styleData` are in `StyleEditor.StyleData.UpdateStyleDataFromForm`.
*/
module FormUpdate {
  import opened JsRuntime
  import opened StyleRecords

  /** The inputs of one point style panel (`iconUrl_k`, `iconScale_k`, ...). */
  datatype PointForm = PointForm(
    iconUrl: string,
    iconScale: string,
    iconHeading: string,
    iconColor: string,
    labelEnabled: bool,
    labelColor: string,
    labelScale: string)

  /** The inputs of one line style panel (`lineColor_k`, `lineWidth_k`). */
  datatype LineForm = LineForm(lineColor: string, lineWidth: string)

  /** The inputs of one polygon style panel (`fillColor_k`, ..., `polyLineWidth_k`). */
  datatype PolygonForm = PolygonForm(
    fillColor: string,
    fillOpacity: string,
    polyFill: bool,
    polyOutline: bool,
    lineColor: string,
    lineWidth: string)

  /** The whole control panel: the inputs for the points, the lines and the polygons, by index. */
  datatype Form = Form(points: seq<PointForm>, lines: seq<LineForm>, polygons: seq<PolygonForm>)

  /**
    The point record after its panel is read: every field but the id is
    replaced from the inputs, the scale falls back to 1 and the heading to 0
    when the text does not give a non-zero number, and the label colour and
    scale are read only while the label checkbox is ticked.
  */
  function ApplyPointForm(p: PointStyle, f: PointForm, parseFloat: string -> Number): (q: PointStyle)
    ensures q.id == p.id && q.iconUrl == f.iconUrl && q.iconColor == f.iconColor
    ensures q.labelEnabled == f.labelEnabled
    ensures q.iconScale.Truthy()
    ensures q.iconHeading.Num?
    ensures parseFloat(f.iconScale).Truthy() ==> q.iconScale == parseFloat(f.iconScale)
    ensures parseFloat(f.iconHeading).Num? ==> q.iconHeading == parseFloat(f.iconHeading)
    ensures !parseFloat(f.iconScale).Truthy() ==> q.iconScale == Num(1.0)
    ensures !parseFloat(f.iconHeading).Truthy() ==> q.iconHeading == Num(0.0)
    ensures f.labelEnabled ==> q.labelColor == f.labelColor && q.labelScale.Truthy()
    ensures f.labelEnabled && parseFloat(f.labelScale).Truthy() ==> q.labelScale == parseFloat(f.labelScale)
    ensures f.labelEnabled && !parseFloat(f.labelScale).Truthy() ==> q.labelScale == Num(1.0)
    ensures !f.labelEnabled ==> q.labelColor == p.labelColor && q.labelScale == p.labelScale
  {
    var q := p.(
      iconUrl := f.iconUrl,
      iconScale := OrElse(parseFloat(f.iconScale), Num(1.0)),
      iconHeading := OrElse(parseFloat(f.iconHeading), Num(0.0)),
      iconColor := f.iconColor,
      labelEnabled := f.labelEnabled);
    if q.labelEnabled then
      q.(labelColor := f.labelColor, labelScale := OrElse(parseFloat(f.labelScale), Num(1.0)))
    else q
  }

  /** The line record after its panel is read: the width is `parseInt(text, 10) || 1`. */
  function ApplyLineForm(l: LineStyle, f: LineForm): (m: LineStyle)
    ensures m.id == l.id && m.lineColor == f.lineColor
    ensures m.lineWidth.Truthy()
    ensures ParseInt(f.lineWidth, 10).Truthy() ==> m.lineWidth == ParseInt(f.lineWidth, 10)
    ensures !ParseInt(f.lineWidth, 10).Truthy() ==> m.lineWidth == Num(1.0)
  {
    l.(lineColor := f.lineColor, lineWidth := OrElse(ParseInt(f.lineWidth, 10), Num(1.0)))
  }

  /** The polygon record after its panel is read; the opacity falls back to 1, the width to 1. */
  function ApplyPolygonForm(q: PolygonStyle, f: PolygonForm, parseFloat: string -> Number): (r: PolygonStyle)
    ensures r.id == q.id && r.fillColor == f.fillColor && r.lineColor == f.lineColor
    ensures r.polyFill == f.polyFill && r.polyOutline == f.polyOutline
    ensures r.fillOpacity.Truthy() && r.lineWidth.Truthy()
    ensures parseFloat(f.fillOpacity).Truthy() ==> r.fillOpacity == parseFloat(f.fillOpacity)
    ensures ParseInt(f.lineWidth, 10).Truthy() ==> r.lineWidth == ParseInt(f.lineWidth, 10)
    ensures !parseFloat(f.fillOpacity).Truthy() ==> r.fillOpacity == Num(1.0)
    ensures !ParseInt(f.lineWidth, 10).Truthy() ==> r.lineWidth == Num(1.0)
  {
    q.(
      fillColor := f.fillColor,
      fillOpacity := OrElse(parseFloat(f.fillOpacity), Num(1.0)),
      polyFill := f.polyFill,
      polyOutline := f.polyOutline,
      lineColor := f.lineColor,
      lineWidth := OrElse(ParseInt(f.lineWidth, 10), Num(1.0)))
  }

  /** Reading the same panel twice changes nothing the first reading did not. */
  lemma ApplyFormsIdempotent(p: PointStyle, pf: PointForm, l: LineStyle, lf: LineForm,
                             q: PolygonStyle, qf: PolygonForm, parseFloat: string -> Number)
    ensures ApplyPointForm(ApplyPointForm(p, pf, parseFloat), pf, parseFloat) == ApplyPointForm(p, pf, parseFloat)
    ensures ApplyLineForm(ApplyLineForm(l, lf), lf) == ApplyLineForm(l, lf)
    ensures ApplyPolygonForm(ApplyPolygonForm(q, qf, parseFloat), qf, parseFloat) == ApplyPolygonForm(q, qf, parseFloat)
  {
  }

  /**
    After a panel is read, a point record depends on its old value only
    through its id and, while the label is switched off, its label colour and
    scale: two records that agree there come out equal.
  */
  lemma PointFormOverwrites(p1: PointStyle, p2: PointStyle, f: PointForm, parseFloat: string -> Number)
    requires p1.id == p2.id
    requires !f.labelEnabled ==> p1.labelColor == p2.labelColor && p1.labelScale == p2.labelScale
    ensures ApplyPointForm(p1, f, parseFloat) == ApplyPointForm(p2, f, parseFloat)
  {
  }

  /** Line and polygon records keep only their id across a panel reading. */
  lemma LineAndPolygonFormsOverwrite(l1: LineStyle, l2: LineStyle, lf: LineForm,
                                     q1: PolygonStyle, q2: PolygonStyle, qf: PolygonForm, parseFloat: string -> Number)
    requires l1.id == l2.id && q1.id == q2.id
    ensures ApplyLineForm(l1, lf) == ApplyLineForm(l2, lf)
    ensures ApplyPolygonForm(q1, qf, parseFloat) == ApplyPolygonForm(q2, qf, parseFloat)
  {
  }
}
