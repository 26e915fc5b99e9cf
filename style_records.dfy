/**
  The three kinds of style record the editor keeps in `styleData`: point
  (icon and label), line, and polygon (fill and outline). Colours are
  `#rrggbb` strings; scales, headings, widths and opacities are JavaScript
  numbers and may be NaN when the KML text did not parse.
*/
module StyleRecords {
  import opened JsRuntime

  datatype PointStyle = PointStyle(
    id: string,
    iconUrl: string,
    iconScale: Number,
    iconHeading: Number,
    iconColor: string,
    labelEnabled: bool,
    labelColor: string,
    labelScale: Number)

  datatype LineStyle = LineStyle(id: string, lineColor: string, lineWidth: Number)

  datatype PolygonStyle = PolygonStyle(
    id: string,
    fillColor: string,
    fillOpacity: Number,
    polyFill: bool,
    polyOutline: bool,
    lineColor: string,
    lineWidth: Number)

  /** The point record `readKmlStyles` starts from before reading any child element. */
  function DefaultPoint(id: string): PointStyle {
    PointStyle(id, "", Num(1.0), Num(0.0), "#ffffff", false, "#000000", Num(1.0))
  }

  /** The line record `readKmlStyles` starts from. */
  function DefaultLine(id: string): LineStyle {
    LineStyle(id, "#000000", Num(1.0))
  }

  /** The polygon record `readKmlStyles` starts from. */
  function DefaultPolygon(id: string): PolygonStyle {
    PolygonStyle(id, "#ffffff", Num(1.0), true, true, "#000000", Num(1.0))
  }
}
