/**
  The colour codec of the style editor: KML writes a colour as eight hex
  digits `aabbggrr` (alpha, blue, green, red); the editor's form works with
  `#rrggbb` plus a separate opacity in [0, 1], and the map renderer takes an
  `rgba(r, g, b, a)` colour.
*/
module ColorCodec {
  import opened JsRuntime

  /** `#` followed by six hex digits: what an HTML colour input produces. */
  predicate IsHexColor(hex: string) {
    |hex| == 7 && hex[0] == '#' && forall i :: 1 <= i < 7 ==> IsHexDigit(hex[i])
  }

  /** `convertKmlToHex`: `aabbggrr` to `#rrggbb`; a string of any other length than 8 gives `#000000`. */
  function ConvertKmlToHex(kmlColor: string): (hex: string)
    ensures |hex| == 7 && hex[0] == '#'
    ensures |kmlColor| != 8 ==> hex == "#000000"
    ensures |kmlColor| == 8 ==>
              hex[1..3] == kmlColor[6..8] && hex[3..5] == kmlColor[4..6] && hex[5..7] == kmlColor[2..4]
  {
    if |kmlColor| != 8 then "#000000"
    else "#" + Substr(kmlColor, 6, 2) + Substr(kmlColor, 4, 2) + Substr(kmlColor, 2, 2)
  }

  /** `n / 255` on a JavaScript number. */
  function Over255(n: Number): Number {
    match n
    case NaN => NaN
    case Num(v) => Num(v / 255.0)
  }

  /** `extractAlpha`: the `aa` byte of `aabbggrr` divided by 255; 1 when the length is not 8. */
  function ExtractAlpha(kmlColor: string): (alpha: Number)
    ensures |kmlColor| != 8 ==> alpha == Num(1.0)
    ensures |kmlColor| == 8 && IsHexDigit(kmlColor[0]) && IsHexDigit(kmlColor[1]) ==>
              && alpha == Num((16 * DigitValue(kmlColor[0]) + DigitValue(kmlColor[1])) as real / 255.0)
              && 0.0 <= alpha.value <= 1.0
  {
    if |kmlColor| != 8 then Num(1.0)
    else
      assert IsHexDigit(kmlColor[0]) && IsHexDigit(kmlColor[1]) ==>
               ParseHexAt(kmlColor, 0) == Num((16 * DigitValue(kmlColor[0]) + DigitValue(kmlColor[1])) as real) by {
        if IsHexDigit(kmlColor[0]) && IsHexDigit(kmlColor[1]) {
          ParseHexAtValue(kmlColor, 0);
        }
      }
      Over255(ParseHexAt(kmlColor, 0))
  }

  /** The colour `hexToRGBA` hands to the renderer: three channels and an opacity. */
  datatype Rgba = Rgba(red: Number, green: Number, blue: Number, opacity: Number)

  /** `hexToRGBA`: the channels parsed (radix 16) from `hex[1..3]`, `hex[3..5]`, `hex[5..7]`,
      and the opacity passed through. */
  function HexToRgba(hex: string, opacity: Number): (c: Rgba)
    ensures c.opacity == opacity
  {
    Rgba(ParseHexAt(hex, 1), ParseHexAt(hex, 3), ParseHexAt(hex, 5), opacity)
  }

  /** For a well-formed `#rrggbb`, `hexToRGBA` reports the three bytes the colour spells,
      each in 0..255, and the opacity unchanged. */
  lemma HexToRgbaChannels(hex: string, opacity: Number)
    requires IsHexColor(hex)
    ensures HexToRgba(hex, opacity) == Rgba(
              Num((16 * DigitValue(hex[1]) + DigitValue(hex[2])) as real),
              Num((16 * DigitValue(hex[3]) + DigitValue(hex[4])) as real),
              Num((16 * DigitValue(hex[5]) + DigitValue(hex[6])) as real),
              opacity)
    ensures var c := HexToRgba(hex, opacity);
            0.0 <= c.red.value <= 255.0 && 0.0 <= c.green.value <= 255.0 && 0.0 <= c.blue.value <= 255.0
  {
    ChannelByte(hex, 1, 2);
    ChannelByte(hex, 3, 4);
    ChannelByte(hex, 5, 6);
  }

  /** Two hex digits read as a number in 0..255. */
  lemma ChannelByte(s: string, i: nat, j: nat)
    requires j == i + 1 && j < |s| && IsHexDigit(s[i]) && IsHexDigit(s[j])
    ensures ParseHexAt(s, i) == Num((16 * DigitValue(s[i]) + DigitValue(s[j])) as real)
    ensures 0.0 <= ParseHexAt(s, i).value <= 255.0
  {
    ParseHexAtValue(s, i);
  }

  /** `parseInt(s.substr(i, 2), 16)`. */
  function ParseHexAt(s: string, i: nat): Number {
    ParseInt(Substr(s, i, 2), 16)
  }

  lemma ParseHexAtValue(s: string, i: nat)
    requires i + 2 <= |s| && IsHexDigit(s[i]) && IsHexDigit(s[i + 1])
    ensures ParseHexAt(s, i) == Num((16 * DigitValue(s[i]) + DigitValue(s[i + 1])) as real)
  {
    SubstrPair(s, i);
    ParsePairText(s[i], s[i + 1], Substr(s, i, 2));
  }

  lemma SubstrPair(s: string, i: nat)
    requires i + 2 <= |s|
    ensures Substr(s, i, 2) == [s[i], s[i + 1]]
  {
  }

  /** Kept apart from `SubstrPair` so that the solver never unfolds `ParseInt` and `Substr` together. */
  lemma ParsePairText(a: char, b: char, p: string)
    requires IsHexDigit(a) && IsHexDigit(b) && p == [a, b]
    ensures ParseInt(p, 16) == Num((16 * DigitValue(a) + DigitValue(b)) as real)
  {
    ParseHexPair(a, b);
  }

  /** `Math.round(opacity * 255).toString(16).padStart(2, '0')`. */
  function AlphaHex(opacity: Number): (a: string)
    ensures opacity.Num? && 0.0 <= opacity.value <= 1.0 ==>
              && |a| == 2 && IsHexDigit(a[0]) && IsHexDigit(a[1])
              && 16 * DigitValue(a[0]) + DigitValue(a[1]) == Round(opacity.value * 255.0)
  {
    match opacity
    case NaN => "NaN"
    case Num(v) =>
      var n := Round(v * 255.0);
      var h := PadStart2(IntToHex(n));
      assert 0.0 <= v <= 1.0 ==>
               && |h| == 2 && IsHexDigit(h[0]) && IsHexDigit(h[1])
               && 16 * DigitValue(h[0]) + DigitValue(h[1]) == n by {
        if 0.0 <= v <= 1.0 { ByteHex(n); }
      }
      h
  }

  /** `colorToKmlColor`: drop the first `#`, then write alpha, blue, green, red. */
  function ColorToKmlColor(hexColor: string, opacity: Number): (kml: string)
    ensures |hexColor| == 7 && hexColor[0] == '#' ==>
              kml == AlphaHex(opacity) + hexColor[5..7] + hexColor[3..5] + hexColor[1..3]
  {
    var h := RemoveFirst(hexColor, '#');
    assert |hexColor| == 7 && hexColor[0] == '#' ==>
             Substr(h, 4, 2) == hexColor[5..7] && Substr(h, 2, 2) == hexColor[3..5] && Substr(h, 0, 2) == hexColor[1..3] by {
      if |hexColor| == 7 && hexColor[0] == '#' {
        assert h == hexColor[1..];
      }
    }
    AlphaHex(opacity) + Substr(h, 4, 2) + Substr(h, 2, 2) + Substr(h, 0, 2)
  }

  /**
    Encoding `#rrggbb` with an opacity in [0, 1] gives eight characters that
    decode back to the same `#rrggbb`, and to the opacity rounded to the
    nearest multiple of 1/255.
  */
  lemma EncodeThenDecode(hex: string, opacity: real)
    requires |hex| == 7 && hex[0] == '#'
    requires 0.0 <= opacity <= 1.0
    ensures |ColorToKmlColor(hex, Num(opacity))| == 8
    ensures ConvertKmlToHex(ColorToKmlColor(hex, Num(opacity))) == hex
    ensures ExtractAlpha(ColorToKmlColor(hex, Num(opacity))) == Num(Round(opacity * 255.0) as real / 255.0)
  {
    EncodedLayout(hex, opacity);
    SameHexColor(ConvertKmlToHex(ColorToKmlColor(hex, Num(opacity))), hex);
    EncodedAlpha(hex, opacity);
  }

  /** The opacity read back from an encoded colour is the one written, rounded to the 1/255 grid. */
  lemma EncodedAlpha(hex: string, opacity: real)
    requires |hex| == 7 && hex[0] == '#'
    requires 0.0 <= opacity <= 1.0
    ensures ExtractAlpha(ColorToKmlColor(hex, Num(opacity))) == Num(Round(opacity * 255.0) as real / 255.0)
  {
    var n := Round(opacity * 255.0);
    EncodedLayout(hex, opacity);
    var kml := ColorToKmlColor(hex, Num(opacity));
    ByteHex(n);
    assert kml[0] == kml[..2][0] && kml[1] == kml[..2][1];
  }

  /** Where the pieces of an encoded colour sit: the alpha byte, then blue, green and red. */
  lemma EncodedLayout(hex: string, opacity: real)
    requires |hex| == 7 && hex[0] == '#'
    requires 0.0 <= opacity <= 1.0
    ensures var kml := ColorToKmlColor(hex, Num(opacity));
            && |kml| == 8 && kml[..2] == PadStart2(NatToHex(Round(opacity * 255.0)))
            && kml[2..4] == hex[5..7] && kml[4..6] == hex[3..5] && kml[6..8] == hex[1..3]
  {
    var n := Round(opacity * 255.0);
    assert 0 <= n < 256;
    ByteHex(n);
    var a := AlphaHex(Num(opacity));
    assert a == PadStart2(NatToHex(n));
    FourPairs(a, hex[5..7], hex[3..5], hex[1..3]);
  }

  lemma FourPairs(a: string, b: string, c: string, d: string)
    requires |a| == 2 && |b| == 2 && |c| == 2 && |d| == 2
    ensures var k := a + b + c + d;
            && |k| == 8 && k[..2] == a && k[2..4] == b && k[4..6] == c && k[6..8] == d
  {
  }

  /** Two `#rrggbb` texts that agree on the `#` and on each pair are equal. */
  lemma SameHexColor(x: string, y: string)
    requires |x| == 7 && |y| == 7 && x[0] == y[0]
    requires x[1..3] == y[1..3] && x[3..5] == y[3..5] && x[5..7] == y[5..7]
    ensures x == y
  {
    assert x == [x[0]] + x[1..3] + x[3..5] + x[5..7];
    assert y == [y[0]] + y[1..3] + y[3..5] + y[5..7];
  }

  /** Full opacity is written as the alpha byte `ff`. */
  lemma OpaqueAlphaIsFF(hex: string)
    ensures ColorToKmlColor(hex, Num(1.0))[..2] == "ff"
  {
    assert Round(1.0 * 255.0) == 255;
    assert NatToHex(255 / 16) == [HexDigitChar(15)];
    assert NatToHex(255) == "ff";
  }

  /** An opacity already on the 1/255 grid survives encoding and decoding exactly. */
  lemma QuantizedOpacityRoundTrip(hex: string, n: nat)
    requires |hex| == 7 && hex[0] == '#'
    requires n <= 255
    ensures ExtractAlpha(ColorToKmlColor(hex, Num(n as real / 255.0))) == Num(n as real / 255.0)
  {
    GridOpacityRoundTrip(hex, n, n as real / 255.0);
  }

  /** The alpha text written for the opacity `n / 255` of a byte `n`. */
  lemma AlphaHexOfByte(n: nat)
    requires n < 256
    ensures AlphaHex(Num(n as real / 255.0)) == PadStart2(NatToHex(n))
  {
    OnTheGrid(n);
  }

  lemma GridOpacityRoundTrip(hex: string, n: nat, o: real)
    requires |hex| == 7 && hex[0] == '#'
    requires n <= 255 && o == n as real / 255.0
    ensures ExtractAlpha(ColorToKmlColor(hex, Num(o))) == Num(o)
  {
    EncodedAlpha(hex, o);
    OnTheGrid(n);
  }

  /** Scaling `n / 255` back by 255 and rounding gives `n`. */
  lemma OnTheGrid(n: nat)
    ensures (n as real / 255.0) * 255.0 == n as real
    ensures Round((n as real / 255.0) * 255.0) == n
  {
  }

  /** Two-digit lower-case hex texts with the same value are equal. */
  lemma LowerHexPairDetermined(a: string, b: string)
    requires |a| == 2 && |b| == 2
    requires IsHexDigit(a[0]) && IsHexDigit(a[1]) && IsHexDigit(b[0]) && IsHexDigit(b[1])
    requires !('A' <= a[0] <= 'F') && !('A' <= a[1] <= 'F') && !('A' <= b[0] <= 'F') && !('A' <= b[1] <= 'F')
    requires 16 * DigitValue(a[0]) + DigitValue(a[1]) == 16 * DigitValue(b[0]) + DigitValue(b[1])
    ensures a == b
  {
    assert DigitValue(a[0]) == DigitValue(b[0]);
    assert DigitValue(a[1]) == DigitValue(b[1]);
  }

  /**
    Decoding a KML colour whose alpha byte is two lower-case hex digits and
    encoding the result with the extracted opacity gives the same KML colour.
  */
  lemma DecodeThenEncode(kml: string)
    requires |kml| == 8
    requires IsHexDigit(kml[0]) && IsHexDigit(kml[1])
    requires !('A' <= kml[0] <= 'F') && !('A' <= kml[1] <= 'F')
    ensures ColorToKmlColor(ConvertKmlToHex(kml), ExtractAlpha(kml)) == kml
  {
    AlphaTextRoundTrip(kml);
    var hex := ConvertKmlToHex(kml);
    assert hex[5..7] == kml[2..4] && hex[3..5] == kml[4..6] && hex[1..3] == kml[6..8];
    SplitInPairs(kml);
  }

  lemma SplitInPairs(kml: string)
    requires |kml| == 8
    ensures kml == kml[..2] + kml[2..4] + kml[4..6] + kml[6..8]
  {
  }

  /** The alpha byte of a KML colour, read as an opacity and written again, is the same text. */
  lemma AlphaTextRoundTrip(kml: string)
    requires |kml| == 8
    requires IsHexDigit(kml[0]) && IsHexDigit(kml[1])
    requires !('A' <= kml[0] <= 'F') && !('A' <= kml[1] <= 'F')
    ensures AlphaHex(ExtractAlpha(kml)) == kml[..2]
  {
    var n := 16 * DigitValue(kml[0]) + DigitValue(kml[1]);
    assert ExtractAlpha(kml) == Num(n as real / 255.0);
    AlphaHexOfByte(n);
    ByteHex(n);
    var a := PadStart2(NatToHex(n));
    LowerByteHex(n);
    LowerHexPairDetermined(a, kml[..2]);
  }

  /** The two digits written for a byte are lower-case hex digits whose value is the byte. */
  lemma LowerByteHex(n: nat)
    requires n < 256
    ensures var a := PadStart2(NatToHex(n));
            && |a| == 2 && IsHexDigit(a[0]) && IsHexDigit(a[1])
            && !('A' <= a[0] <= 'F') && !('A' <= a[1] <= 'F')
            && 16 * DigitValue(a[0]) + DigitValue(a[1]) == n
  {
    ByteHex(n);
    var a := PadStart2(NatToHex(n));
    if n < 16 {
      assert a == ['0', HexDigitChar(n)];
    } else {
      assert NatToHex(n / 16) == [HexDigitChar(n / 16)];
      assert a == [HexDigitChar(n / 16), HexDigitChar(n % 16)];
    }
  }
}
