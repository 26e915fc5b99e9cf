/** Option, as used throughout the model for "absent or present" values. */
module Wrappers {
  datatype Option<+T> = None | Some(value: T) {
    function GetOr(default: T): T {
      match this
      case Some(v) => v
      case None => default
    }
  }
}

/**
  The few pieces of the JavaScript runtime that the KML style engine leans on:
  numbers (with NaN), truthiness and `||` defaulting, `String.prototype.trim`,
  `substr`, `replace` of a single character, `parseInt` with radix 10 or 16,
  `Number.prototype.toString(16)`, `padStart(2, '0')` and `Math.round`.
  `parseInt` is modelled concretely; `parseFloat` and the decimal rendering
  of arbitrary numbers stay abstract and are passed in by callers.
*/
module JsRuntime {

  /** A JavaScript number: NaN or a finite value, kept exactly as a real. */
  datatype Number = NaN | Num(value: real) {
    /** JavaScript truthiness of a number: NaN and zero are falsy. */
    predicate Truthy() {
      Num? && value != 0.0
    }
  }

  /** `x || d` for a number `x`. */
  function OrElse(x: Number, d: Number): (r: Number)
    ensures x.Truthy() ==> r == x
    ensures !x.Truthy() ==> r == d
  {
    if x.Truthy() then x else d
  }

  /** `x !== 0` for a number `x` (NaN is not equal to zero). */
  predicate NotZero(x: Number) {
    !(x.Num? && x.value == 0.0)
  }

  // ---------------------------------------------------------------------------
  // Strings

  /** The characters that `trim` and `parseInt` skip (WhiteSpace and LineTerminator). */
  predicate IsWhitespace(c: char) {
    || c == ' ' || c == '\t' || c == '\n' || c == '\r' || c == '\U{B}' || c == '\U{C}'
    || c == '\U{A0}' || c == '\U{FEFF}' || c == '\U{1680}' || ('\U{2000}' <= c <= '\U{200A}')
    || c == '\U{2028}' || c == '\U{2029}' || c == '\U{202F}' || c == '\U{205F}' || c == '\U{3000}'
  }

  /** `s` with its leading whitespace removed (see `TrimStartSpec`). */
  function TrimStart(s: string): (r: string)
    ensures |r| <= |s|
  {
    if |s| > 0 && IsWhitespace(s[0]) then TrimStart(s[1..]) else s
  }

  /** `s` with its trailing whitespace removed. */
  function TrimEnd(s: string): (r: string)
    ensures |r| <= |s|
  {
    if |s| > 0 && IsWhitespace(s[|s| - 1]) then TrimEnd(s[..|s| - 1]) else s
  }

  /** `s.trim()`. */
  function Trim(s: string): string {
    TrimEnd(TrimStart(s))
  }

  /** `TrimStart` removes exactly the leading run of whitespace. */
  lemma {:induction false} TrimStartSpec(s: string)
    ensures var r := TrimStart(s);
            && r == s[|s| - |r|..]
            && (forall i :: 0 <= i < |s| - |r| ==> IsWhitespace(s[i]))
            && (r == [] || !IsWhitespace(r[0]))
  {
    if |s| > 0 && IsWhitespace(s[0]) {
      TrimStartSpec(s[1..]);
      var r := TrimStart(s);
      forall i | 0 <= i < |s| - |r| ensures IsWhitespace(s[i]) {
        if i > 0 { assert s[i] == s[1..][i - 1]; }
      }
    }
  }

  /** `TrimEnd` removes exactly the trailing run of whitespace. */
  lemma {:induction false} TrimEndSpec(s: string)
    ensures var r := TrimEnd(s);
            && r == s[..|r|]
            && (forall i :: |r| <= i < |s| ==> IsWhitespace(s[i]))
            && (r == [] || !IsWhitespace(r[|r| - 1]))
  {
    if |s| > 0 && IsWhitespace(s[|s| - 1]) {
      TrimEndSpec(s[..|s| - 1]);
    }
  }

  /**
    `s.trim()` is the middle of `s` left once the leading and the trailing
    runs of whitespace are cut off: a contiguous piece of `s`, with only
    whitespace around it, that neither starts nor ends with whitespace.
  */
  lemma TrimSpec(s: string)
    ensures var r, a := Trim(s), |s| - |TrimStart(s)|;
            && a + |r| <= |s|
            && r == s[a..a + |r|]
            && (forall i :: 0 <= i < a ==> IsWhitespace(s[i]))
            && (forall i :: a + |r| <= i < |s| ==> IsWhitespace(s[i]))
            && (r == [] || (!IsWhitespace(r[0]) && !IsWhitespace(r[|r| - 1])))
  {
    var t := TrimStart(s);
    var r := TrimEnd(t);
    TrimStartSpec(s);
    TrimEndSpec(t);
    var a := |s| - |t|;
    assert r == s[a..a + |r|];
    forall i | a + |r| <= i < |s| ensures IsWhitespace(s[i]) {
      assert s[i] == t[i - a];
    }
    if r != [] {
      assert r[0] == t[0];
    }
  }

  /** Trimming a string that neither starts nor ends with whitespace changes nothing. */
  lemma TrimNoop(s: string)
    requires s == [] || (!IsWhitespace(s[0]) && !IsWhitespace(s[|s| - 1]))
    ensures Trim(s) == s
  {
  }

  /** `s.substr(start, len)` for non-negative arguments: both ends are clamped to the string. */
  function Substr(s: string, start: nat, len: nat): (r: string)
    ensures start + len <= |s| ==> r == s[start..start + len]
    ensures |s| <= start ==> r == ""
  {
    var from := if start <= |s| then start else |s|;
    var to := if start + len <= |s| then start + len else |s|;
    s[from..to]
  }

  /** `s.replace(c, '')` for a one-character pattern: drops the first occurrence of `c` only. */
  function RemoveFirst(s: string, c: char): (r: string)
    ensures c !in s ==> r == s
    ensures c in s ==> |r| == |s| - 1
    ensures |s| > 0 && s[0] == c ==> r == s[1..]
  {
    if |s| == 0 then s
    else if s[0] == c then s[1..]
    else [s[0]] + RemoveFirst(s[1..], c)
  }

  // ---------------------------------------------------------------------------
  // Digits

  predicate IsDecimalDigit(c: char) {
    '0' <= c <= '9'
  }

  predicate IsHexDigit(c: char) {
    '0' <= c <= '9' || 'a' <= c <= 'f' || 'A' <= c <= 'F'
  }

  /** The radixes the engine passes to `parseInt`. */
  predicate IsRadix(radix: nat) {
    radix == 10 || radix == 16
  }

  predicate IsRadixDigit(c: char, radix: nat) {
    if radix == 16 then IsHexDigit(c) else IsDecimalDigit(c)
  }

  function DigitValue(c: char): (d: nat)
    ensures d < 16
    ensures IsDecimalDigit(c) ==> d < 10
  {
    if '0' <= c <= '9' then c as nat - '0' as nat
    else if 'a' <= c <= 'f' then c as nat - 'a' as nat + 10
    else if 'A' <= c <= 'F' then c as nat - 'A' as nat + 10
    else 0
  }

  /** The longest prefix of `s` made of digits of `radix`. */
  function DigitPrefix(s: string, radix: nat): (z: string)
    ensures |z| <= |s|
  {
    if |s| > 0 && IsRadixDigit(s[0], radix) then [s[0]] + DigitPrefix(s[1..], radix) else ""
  }

  /** The value of a non-empty run of digits, most significant first. */
  function DigitsValue(z: string, radix: nat): nat {
    if |z| == 0 then 0
    else
      var high := DigitsValue(z[..|z| - 1], radix);
      (if radix == 16 then 16 * high else 10 * high) + DigitValue(z[|z| - 1])
  }

  /**
    `parseInt(s, radix)`: skip leading whitespace, take an optional sign, for
    radix 16 drop a `0x`/`0X` prefix, then read the longest run of digits;
    NaN when that run is empty.
  */
  function ParseInt(s: string, radix: nat): (r: Number)
    requires IsRadix(radix)
  {
    ParseSigned(TrimStart(s), radix)
  }

  /** `parseInt` after the leading whitespace: an optional sign, then the magnitude. */
  function ParseSigned(t: string, radix: nat): Number
    requires IsRadix(radix)
  {
    if |t| > 0 && t[0] == '-' then Negate(ParseMagnitude(t[1..], radix))
    else if |t| > 0 && t[0] == '+' then ParseMagnitude(t[1..], radix)
    else ParseMagnitude(t, radix)
  }

  function Negate(n: Number): Number {
    match n
    case NaN => NaN
    case Num(v) => Num(-v)
  }

  /** `parseInt` after the sign: for radix 16 an optional `0x`/`0X`, then the digits. */
  function ParseMagnitude(u: string, radix: nat): Number
    requires IsRadix(radix)
  {
    if radix == 16 && |u| >= 2 && u[0] == '0' && (u[1] == 'x' || u[1] == 'X') then ParseDigits(u[2..], radix)
    else ParseDigits(u, radix)
  }

  /** The longest run of digits at the start of `v`, or NaN when there is none. */
  function ParseDigits(v: string, radix: nat): Number
    requires IsRadix(radix)
  {
    var z := DigitPrefix(v, radix);
    if |z| == 0 then NaN else Num(DigitsValue(z, radix) as real)
  }

  /** Two hexadecimal digits parse, with radix 16, to their value. */
  lemma ParseHexPair(a: char, b: char)
    requires IsHexDigit(a) && IsHexDigit(b)
    ensures ParseInt([a, b], 16) == Num((16 * DigitValue(a) + DigitValue(b)) as real)
  {
    var s := [a, b];
    assert !IsWhitespace(a);
    assert TrimStart(s) == s;
    assert DigitPrefix(s[1..], 16) == [b];
    assert DigitPrefix(s, 16) == s;
    assert s[..1] == [a];
    assert DigitsValue(s, 16) == DigitsValue([a], 16) * 16 + DigitValue(b);
    assert DigitsValue([a], 16) == DigitValue(a) by {
      assert [a][..0] == [];
    }
  }

  // ---------------------------------------------------------------------------
  // Number formatting

  /** The lower-case hexadecimal digit for `d`. */
  function HexDigitChar(d: nat): (c: char)
    requires d < 16
    ensures IsHexDigit(c) && DigitValue(c) == d
    ensures !('A' <= c <= 'F')
  {
    if d < 10 then (d + '0' as nat) as char else (d - 10 + 'a' as nat) as char
  }

  /** `n.toString(16)` for a non-negative integer: lower-case digits, no padding. */
  function NatToHex(n: nat): (r: string)
    ensures |r| >= 1
    ensures n < 16 <==> |r| == 1
    ensures 16 <= n < 256 <==> |r| == 2
  {
    if n < 16 then [HexDigitChar(n)] else NatToHex(n / 16) + [HexDigitChar(n % 16)]
  }

  /** `n.toString(16)` for any integer. */
  function IntToHex(n: int): string {
    if n < 0 then "-" + NatToHex(-n) else NatToHex(n)
  }

  /** `s.padStart(2, '0')`. */
  function PadStart2(s: string): (r: string)
    ensures |s| >= 2 ==> r == s
    ensures |s| < 2 ==> |r| == 2 && r[2 - |s|..] == s
    ensures forall i :: 0 <= i < 2 - |s| ==> r[i] == '0'
  {
    if |s| >= 2 then s else seq(2 - |s|, _ => '0') + s
  }

  /** A byte in 0..255 is written by `toString(16).padStart(2, '0')` as two hex digits
      whose value is the byte. */
  lemma ByteHex(n: nat)
    requires n < 256
    ensures |PadStart2(NatToHex(n))| == 2
    ensures IsHexDigit(PadStart2(NatToHex(n))[0]) && IsHexDigit(PadStart2(NatToHex(n))[1])
    ensures 16 * DigitValue(PadStart2(NatToHex(n))[0]) + DigitValue(PadStart2(NatToHex(n))[1]) == n
  {
    var h := PadStart2(NatToHex(n));
    if n < 16 {
      assert h == ['0', HexDigitChar(n)];
    } else {
      assert NatToHex(n / 16) == [HexDigitChar(n / 16)];
      assert h == [HexDigitChar(n / 16), HexDigitChar(n % 16)];
    }
  }

  /** `Math.round(x)`: the nearest integer, halves rounded up. */
  function Round(x: real): (r: int)
    ensures r as real - 0.5 <= x < r as real + 0.5
  {
    (x + 0.5).Floor
  }

  /** The decimal digits of `n`, as a template literal `${n}` writes a natural number. */
  function NatToString(n: nat): (r: string)
    ensures |r| >= 1
    ensures forall i :: 0 <= i < |r| ==> IsDecimalDigit(r[i])
  {
    if n < 10 then [(n + '0' as nat) as char]
    else NatToString(n / 10) + [(n % 10 + '0' as nat) as char]
  }

  /** The decimal text of a natural number reads back as that number. */
  lemma {:induction false} NatToStringValue(n: nat)
    ensures DigitsValue(NatToString(n), 10) == n
  {
    var s := NatToString(n);
    if n >= 10 {
      NatToStringValue(n / 10);
      assert s[..|s| - 1] == NatToString(n / 10);
    } else {
      assert s[..0] == [];
    }
  }

  /** `parseInt(String(n), 10) == n` for every natural number `n`. */
  lemma NatToStringParses(n: nat)
    ensures ParseInt(NatToString(n), 10) == Num(n as real)
  {
    var s := NatToString(n);
    NatToStringValue(n);
    assert !IsWhitespace(s[0]) && s[0] != '-' && s[0] != '+';
    assert TrimStart(s) == s;
    DigitPrefixAll(s, 10);
  }

  lemma {:induction false} DigitPrefixAll(s: string, radix: nat)
    requires forall i :: 0 <= i < |s| ==> IsRadixDigit(s[i], radix)
    ensures DigitPrefix(s, radix) == s
  {
    if |s| > 0 {
      DigitPrefixAll(s[1..], radix);
    }
  }

  /** Different natural numbers have different decimal texts. */
  lemma NatToStringInjective(a: nat, b: nat)
    requires NatToString(a) == NatToString(b)
    ensures a == b
  {
    NatToStringValue(a);
    NatToStringValue(b);
  }
}
