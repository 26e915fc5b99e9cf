# KML Styler style engine, in Dafny

KML Styler is a browser page. It loads a KML file, lets the user edit the
point, line and polygon styles of the file, restyles the features on the map,
and writes the styles back out as KML. This project models the style engine
of `script.js`:

- the colour codec between KML `aabbggrr` and `#rrggbb` (`ColorCodec`);
- the reading of `Style` elements into records, `readKmlStyles` (`StyleParser`);
- the overwriting of the records from the control panel, `updateStyleDataFromForm` (`FormUpdate`);
- the id-to-style table of `updateStyle` and the restyling of features through their `styleUrl` (`StyleResolver`);
- the writing of the records as KML `Style` fragments, `styleDataToKml` (`StyleSerializer`);
- the page's `styleData` object and the loops of those four functions, as a class (`StyleEditor`).

Two further modules support them:

- `JsRuntime` holds the JavaScript behaviour the code relies on: `||` on numbers, `trim`, `substr`, `parseInt` in radix 10 and 16, `toString(16)`, `padStart` and `Math.round`.
- `KmlTree` holds the parsed document as an element tree, with `getElementsByTagName` as a preorder search.

`StyleReimport` reads the serializer's output back through the parser and
states what comes back.

JavaScript numbers are `NaN` or a real (`JsRuntime.Number`). `parseFloat`
and the number-to-text conversion inside template strings are parameters
of the model. Colours and opacities are exact reals.

The repository's written description differs from `script.js` in several
places. The model follows `script.js`:

- There is no `StyleMap` handling.
- Synthetic ids are `style_1`, `style_2`, ...: they are one-based.
- A `Style` with both a `LineStyle` and a `PolyStyle` gives a line record *and* a polygon record.
- `labelEnabled` is true whenever a `LabelStyle` exists, even one the serializer wrote for a disabled label.
- The alpha of every colour except the polygon fill is dropped on reading: the icon colour, the label colour, the line colour and the polygon outline colour keep only `#rrggbb` (script.js:111, 121, 144 and 189). Only the fill colour's alpha becomes the fill opacity.
- Line colours are always written with opacity 1.

## Model

| member | source | states |
|---|---|---|
| ColorCodec.ConvertKmlToHex | script.js:32-38 | the result is always `#` plus 6 characters; `#000000` when the input is not 8 characters long; otherwise red, green and blue taken from positions 6, 4 and 2 |
| ColorCodec.ExtractAlpha | script.js:41-44 | the alpha is 1 when the input is not 8 characters long; otherwise the value of the first two characters read as hex over 255, which lies in [0, 1] when both are hex digits |
| ColorCodec.HexToRgba | script.js:47-52 | the opacity is passed through unchanged |
| ColorCodec.HexToRgbaChannels | script.js:47-52 | for a `#rrggbb` colour, the three channels are the hex values of characters 1-2, 3-4 and 5-6 |
| ColorCodec.AlphaHex | script.js:538 | an opacity in [0, 1] gives exactly two hex digits, whose value is round(opacity*255) |
| ColorCodec.ColorToKmlColor | script.js:528-542 | for a `#rrggbb` colour, the result is the alpha text followed by blue, green and red |
| ColorCodec.EncodeThenDecode | script.js:528-542 | encoding a `#rrggbb` colour with an opacity in [0, 1] gives 8 characters; decoding gives the colour back and an opacity of round(o*255)/255 |
| ColorCodec.OpaqueAlphaIsFF | script.js:538 | opacity 1 is written as alpha `ff` |
| ColorCodec.QuantizedOpacityRoundTrip | script.js:41-44 | an opacity of the form n/255 survives the round trip exactly |
| ColorCodec.AlphaHexOfByte | script.js:538 | the alpha text of n/255 is `n.toString(16).padStart(2, '0')` |
| ColorCodec.DecodeThenEncode | script.js:32-44 | a lower-case alpha with hex digits; decoding a KML colour and encoding it again gives the same 8 characters |
| ColorCodec.AlphaTextRoundTrip | script.js:41-44 | a two-digit lower-case alpha is written back as the same two characters |
| ColorCodec.LowerHexPairDetermined | script.js:538 | two lower-case hex pairs with the same value are the same text |
| ColorCodec.LowerByteHex | script.js:538 | the padded hex text of a byte is two lower-case hex digits whose value is the byte |
| JsRuntime.TrimStartSpec | script.js:92 | the first step of `trim` leaves a suffix of the text; what it drops is whitespace, and the suffix does not start with whitespace |
| JsRuntime.TrimEndSpec | script.js:92 | the second step of `trim` leaves a prefix of the text; what it drops is whitespace, and the prefix does not end with whitespace |
| JsRuntime.TrimSpec | script.js:92 | `trim` gives a contiguous piece of the text with only whitespace before and after it, and the piece neither starts nor ends with whitespace |
| JsRuntime.TrimNoop | script.js:92 | text with no whitespace at either end is unchanged by `trim` |
| JsRuntime.ParseHexPair | script.js:43 | `parseInt` in radix 16 of two hex digits is their value |
| JsRuntime.ByteHex | script.js:538 | `toString(16)` plus `padStart(2, '0')` of a byte is two hex digits whose value is the byte |
| JsRuntime.NatToStringParses | script.js:71 | `parseInt` in radix 10 reads back the decimal text of any natural number |
| JsRuntime.NatToStringInjective | script.js:71 | different natural numbers have different decimal texts |
| KmlTree.FirstWithTag | script.js:74 | the first element of a list carrying a tag: it has the tag, and no earlier element has it; `None` exactly when no element carries the tag |
| KmlTree.FirstWithTagAt | script.js:74 | an element with the tag and none before it is the one found |
| KmlTree.PreorderOfLeaf | script.js:67 | an element without children is alone in its preorder |
| KmlTree.FirstIsHeadOfAll | script.js:74 | `getElementsByTagName(tag)[0]` is the head of the full list of matches |
| StyleParser.StyleElements | script.js:67 | every element of the `Style` list is a `Style` element |
| StyleParser.TextField | script.js:97-99 | no value when the element is missing or its text is empty; otherwise the trimmed text |
| StyleParser.NumberField | script.js:97-106 | the default when no text is present; otherwise the parse of the trimmed text |
| StyleParser.ColorField | script.js:109-112 | the default when no text is present; otherwise the decoded colour, which is always 7 characters starting with `#` |
| StyleParser.FlagField | script.js:175-183 | true when no text is present; otherwise true exactly when the decimal parse is not 0 |
| StyleParser.PointOf | script.js:74-131 | a point record exactly when the style has an `IconStyle`; it carries the style's id, and `labelEnabled` holds exactly when a `LabelStyle` is present; without a `LabelStyle` the label fields keep their defaults |
| StyleParser.LineOf | script.js:134-153 | a line record exactly when the style has a `LineStyle`, with the style's id |
| StyleParser.PolygonOf | script.js:156-199 | a polygon record exactly when the style has a `PolyStyle`, with the style's id; without a `LineStyle` the outline fields keep their defaults |
| StyleParser.Collect | script.js:69-200 | no more records than `Style` elements |
| StyleParser.CollectIsInOrder | script.js:69-200 | the records come in document order: record k is the one read from the k-th style that yields one, and every style that yields a record contributes one |
| StyleParser.CollectCount | script.js:69-200 | the number of records is the number of styles that yield one |
| StyleParser.SyntheticIdIsOneBased | script.js:71 | a style without an `id` attribute gets `style_` followed by the decimal text of i+1 |
| StyleParser.SyntheticIdsDiffer | script.js:71 | two different positions never get the same synthetic id |
| StyleParser.LineAndPolygonFromOneStyle | script.js:134-199 | a style with both a `LineStyle` and a `PolyStyle` yields a line record and a polygon record with the same id and the same outline colour and width |
| StyleParser.EmptyIconStyleGivesDefaults | script.js:76-85 | an empty `IconStyle` and no `LabelStyle` give the documented default point record |
| StyleParser.EmptyLineStyleGivesDefaults | script.js:136-140 | an empty `LineStyle` gives the default line record: black, width 1 |
| StyleParser.EmptyPolyStyleGivesDefaults | script.js:158-166 | an empty `PolyStyle`, with no `LineStyle` or an empty one, gives the default polygon record: white, opaque, filled and outlined in black with width 1 |
| StyleParser.PolygonOpacityInRange | script.js:168-173 | the fill opacity read from a colour with hex alpha digits lies in [0, 1] |
| FormUpdate.ApplyPointForm | script.js:427-438 | every field but the id comes from the panel; the icon scale is the parse, or 1 when that is NaN or 0; the heading is the parse, or 0 when that is NaN or 0; the label colour and scale are read only when the label is enabled, the scale falling back to 1 in the same way, and are kept otherwise |
| FormUpdate.ApplyLineForm | script.js:441-444 | the colour comes from the panel; the width is the decimal parse, or 1 when that is NaN or 0 |
| FormUpdate.ApplyPolygonForm | script.js:447-454 | all fields but the id come from the panel; the opacity is the `parseFloat`, and the width the decimal parse, each replaced by 1 when NaN or 0 |
| FormUpdate.ApplyFormsIdempotent | script.js:425-455 | reading the same panel twice gives what reading it once gives |
| FormUpdate.PointFormOverwrites | script.js:427-438 | after the panel is read, a point record depends on its old value only through its id and, while the label is disabled, its label fields |
| FormUpdate.LineAndPolygonFormsOverwrite | script.js:441-454 | after the panel is read, line and polygon records depend on their old value only through their id |
| StyleResolver.PointRender | script.js:341-369 | a point record renders as an icon with its url, scale and heading; a text style with the name placeholder, white halo and offset -15 exactly when the label is enabled; no fill and no stroke |
| StyleResolver.LineRender | script.js:372-379 | a line record renders as a stroke of its colour and width only |
| StyleResolver.PolygonRender | script.js:382-392 | a fill exactly when `polyFill` holds, with the channels of the fill colour and the opacity; a stroke exactly when `polyOutline` holds |
| StyleResolver.InsertAllDomain | script.js:341-392 | after inserting a run of records, an id is in the table exactly when it was before or some record carries it |
| StyleResolver.InsertAllUntouched | script.js:341-392 | an id no inserted record carries keeps its old entry |
| StyleResolver.InsertAllLast | script.js:341-392 | an id's entry is the rendering of the last inserted record that carries it |
| StyleResolver.InsertAllLookup | script.js:341-392 | after inserting a run of records, an id is in the table exactly when it was before or some record carries it; the last record that carries it wins |
| StyleResolver.StyleTableLookup | script.js:338-392 | an id is in the table exactly when some record carries it; a polygon record wins over a line record, and a line record over a point record |
| StyleResolver.AfterLastHash | script.js:401 | the id never contains `#` and is no longer than the url |
| StyleResolver.AfterLastHashNoHash | script.js:401 | a url without `#` is its own id |
| StyleResolver.AfterLastHashOf | script.js:400-401 | the id of `p#q`, when q has no `#`, is q, whatever p contains |
| StyleResolver.ReferencedId | script.js:396-401 | no id when the feature has no `styleUrl` or an empty one; otherwise the text after the last `#` |
| StyleResolver.ResolveFeature | script.js:395-419 | the url and name never change; a feature without url, or whose id is not in the table, is unchanged; otherwise it gets the table's style, with the label text replaced by the feature's name or `""`, with the own-key lookup (see ## Findings) |
| StyleResolver.ResolveFeatureIdempotent | script.js:395-419 | restyling twice is restyling once |
| StyleResolver.ResolveFeatureForgetsOldStyle | script.js:404-417 | a restyled feature does not depend on its previous style |
| StyleResolver.LabelledFeaturesShowTheirNames | script.js:406-414 | a label shows the feature's name, or `""` when it has none |
| StyleResolver.InheritedNames | script.js:338-392 | the names inherited by `styleMap` are those of `Object.prototype`, plus the members of the style assigned to `__proto__` when there is one, since that assignment replaces the prototype |
| StyleResolver.LookupAsWritten | script.js:402 | `styleMap[id]` on a plain object: the own entry when there is one; otherwise an inherited value exactly for the names of `Object.prototype` and, once a style has the id `__proto__`, for that style object's member names |
| StyleResolver.AsWrittenAgreesOffPrototype | script.js:395-419 | for an id that is in the table or is not inherited (no `Object.prototype` name, and no member name of a `__proto__` style), the code as written and the own-key lookup restyle a feature in the same way |
| StyleResolver.PrototypeIdThrows | script.js:402-407 | `#toString` with no such style makes the code as written throw, while the own-key lookup leaves the feature alone |
| StyleResolver.ProtoStyleMemberThrows | script.js:402-407 | with a style whose id is `__proto__`, a reference to one of that style object's member names with no such style makes the code as written throw, while the own-key lookup leaves the feature alone |
| StyleSerializer.Indent | script.js:463-488 | two spaces per nesting level |
| StyleSerializer.PointKmlIsPrinted | script.js:462-489 | a point fragment is the printed tree of a `Style` with the record's id, an `IconStyle` (colour with alpha `ff`, scale, heading, `Icon`/`href`) and a `LabelStyle`, which holds only `<scale>0</scale>` when the label is disabled |
| StyleSerializer.LineKmlIsPrinted | script.js:492-500 | a line fragment is the printed tree of a `Style` holding one `LineStyle` with an opaque colour and the width |
| StyleSerializer.PolygonKmlIsPrinted | script.js:503-522 | a polygon fragment is the printed tree of a `Style` holding a `PolyStyle` (fill colour with its opacity, `fill` and `outline` as 1/0) and a `LineStyle` exactly when outlined |
| StyleReimport.KmlColorText | script.js:528-542 | a written colour is non-empty, unchanged by `trim`, and decodes to the colour and the rounded alpha |
| StyleReimport.ReimportPoint | script.js:462-489 | reading a written point style gives the record back, with the url trimmed; `labelEnabled` always comes back true, and a disabled label comes back with colour `#000000` and scale `parseFloat("0")`; no line and no polygon record |
| StyleReimport.ReimportLine | script.js:492-500 | reading a written line style gives the record back exactly; no point and no polygon record |
| StyleReimport.ReimportPolygon | script.js:503-522 | reading a written polygon style gives the record back, with the opacity rounded to 1/255 and, when not outlined, the default outline; an outlined polygon also yields a line record with its outline |
| StyleEditor.StyleData.constructor | script.js:24-28 | the records start empty |
| StyleEditor.StyleData.ReadKmlStyles | script.js:55-204 | the records are reset, then each kind holds what is read from the `Style` elements in document order |
| StyleEditor.StyleData.UpdateStyleDataFromForm | script.js:425-455 | the same number of records; record k of each kind is the old record k with panel k applied |
| StyleEditor.StyleData.BuildStyleTable | script.js:338-392 | the table is the one the records define: points, then lines, then polygons |
| StyleEditor.StyleData.StyleDataToKml | script.js:458-525 | the text is the point fragments, then the line fragments, then the polygon fragments |
| StyleEditor.StyleData.AppendPointsKml | script.js:462-489 | appends every point fragment in order |
| StyleEditor.StyleData.AppendLinesKml | script.js:492-500 | appends every line fragment in order |
| StyleEditor.StyleData.AppendPolygonsKml | script.js:503-522 | appends every polygon fragment in order, the outline only when enabled |
| StyleEditor.AppendPointKml | script.js:463-488 | the three appends for one point record add exactly that record's fragment |
| StyleEditor.AppendPolygonKml | script.js:504-521 | the appends for one polygon record add exactly its fragment, the `LineStyle` only when outlined |
| StyleEditor.ApplyStyles | script.js:395-419 | every feature of the array is restyled from the table, in place, with the own-key lookup (see ## Findings) |
| StyleEditor.UpdateStyle | script.js:333-420 | the records are overwritten from the panel; then every feature is restyled from the table of the updated records, with the own-key lookup (see ## Findings) |

## Left out

- OpenLayers is not part of this model: the map, the vector source, the `ol.style.*` objects and `ol.format.KML`. Render styles are plain records, and the features are an array of records with a `styleUrl`, a `name` and a style.
- The page's controls are not modelled: `generateStyleControls` and `toggleLabelControls` only build and show HTML. `updateStyleDataFromForm` reads its inputs from a `Form` record with one entry per style record. A panel with too few entries is excluded by a precondition, since the code would fail on the missing element.
- `DOMParser` and `XMLSerializer` are not modelled. Documents are already-parsed element trees, and an element's `text` stands for its `textContent`.
- Nothing is proved about parsing the serializer's text as XML. The fragments are proved to be printed element trees, and the reimport lemmas read those trees back.
- Ids and urls are written without XML escaping, exactly as the code writes them. Texts with `<`, `&` or `"` would not read back.
- Reading the file, `exportKML`'s document assembly, and the download are I/O and are not modelled.
- The member names of an `ol.style.Style` object are a parameter, `styleMembers`, of the as-written lookup. They matter only once a style has the id `__proto__`.
- `parseFloat` and the number-to-text conversion of template strings are parameters. `ShowsAs` states what reimport needs from them.
- Floating point is not modelled. Numbers are exact reals, with no infinities, no `-0` and no double rounding.
- The heading-to-radians conversion (`Math.PI`) and the label font text are not modelled. The render records keep the heading and the label scale themselves.
- `hexToRGBA` returns an `Rgba` record of the channels and the opacity, not the `rgba(...)` text, because the text depends on number formatting.
- A feature's `styleUrl` and `name` are strings or absent. Other JavaScript values are not modelled.
- The record objects are values, not shared references. `forEach` mutating a record is modelled as replacing element k of the sequence.
- StyleReimport.ReimportPoint: stated for records whose colours are `#rrggbb` and whose numbers satisfy `ShowsAs`; other records are not claimed to read back.
- StyleReimport.ReimportLine: stated under the same hypotheses, with the width readable by the decimal `parseInt`.
- StyleReimport.ReimportPolygon: stated for a fill opacity in [0, 1] and, when outlined, the same hypotheses on the outline.
- Strings are sequences of Unicode scalar values. JavaScript's `length`, `substr` and `padStart` count UTF-16 code units, so on text with characters outside the Basic Multilingual Plane the model's lengths and positions differ from the code's: for example `convertKmlToHex` of a text starting with an emoji and then six characters sees length 8, while `ColorCodec.ConvertKmlToHex` sees 7 and gives `#000000`. The model is faithful only on text within the Basic Multilingual Plane.
- ColorCodec.DecodeThenEncode: holds only for lower-case alpha digits, because `toString(16)` writes lower case.

## Findings

| source | as written | input that shows it | evidently intended | confidence | as-written member | corrected member |
|---|---|---|---|---|---|---|
| script.js:401-407 | `styleMap` is a plain object, so `styleMap[styleId]` also finds inherited `Object.prototype` members, and, after a style with id `__proto__` has replaced the prototype, that style's members; `style.getText()` is then not a function and the `forEach` throws, leaving the remaining features unstyled | a feature with `styleUrl` `#toString` and no style with id `toString` | a missing id leaves the feature unchanged (own-key lookup, e.g. `Object.create(null)` or a `Map`) | not executed | StyleResolver.PrototypeIdThrows | StyleResolver.ResolveFeature |
