/**
 * SunsetForecast/ContentView.swift, lines 64-88: the other `Color.init(hex:)`, which accepts
 * "RGB" (each digit doubled), "RRGGBB" and "AARRGGBB" and otherwise gives (a, r, g, b) = (1, 1, 1, 0).
 */
module ArgbHex {
  import opened Hex
  import ColorHex

  const Fallback := Components(1, 1, 1, 0)

  /** "RGB" (12-bit): `(v >> 8) * 17`, `(v >> 4 & 0xF) * 17`, `(v & 0xF) * 17`, opaque. */
  function ShortRgb(v: nat): (c: Components)
    requires v < 4096
    ensures c.alpha == 255
    ensures 0 <= c.red <= 255 && 0 <= c.green <= 255 && 0 <= c.blue <= 255
  {
    Components(255, (v / 256) * 17, (v / 16 % 16) * 17, (v % 16) * 17)
  }

  /** "RRGGBB" (24-bit): `v >> 16`, `v >> 8 & 0xFF`, `v & 0xFF`, opaque. */
  function Rgb(v: nat): (c: Components)
    requires v < 16777216
    ensures c.alpha == 255
    ensures 0 <= c.red <= 255 && 0 <= c.green <= 255 && 0 <= c.blue <= 255
  {
    Components(255, v / 65536, v / 256 % 256, v % 256)
  }

  /** "AARRGGBB" (32-bit): `v >> 24`, `v >> 16 & 0xFF`, `v >> 8 & 0xFF`, `v & 0xFF`. */
  function Argb(v: nat): (c: Components)
    requires v < 4294967296
    ensures 0 <= c.alpha <= 255 && 0 <= c.red <= 255 && 0 <= c.green <= 255 && 0 <= c.blue <= 255
  {
    Components(v / 16777216, v / 65536 % 256, v / 256 % 256, v % 256)
  }

  /** The short form takes three nibbles apart, each scaled by 17. */
  lemma ShortRgbOfNibbles(x: nat, y: nat, z: nat)
    requires x < 16 && y < 16 && z < 16
    ensures ShortRgb(x * 256 + y * 16 + z) == Components(255, x * 17, y * 17, z * 17)
  {
    SplitNibbles(x, y, z);
  }

  /** The 24-bit form takes three bytes apart again. */
  lemma RgbOfBytes(r: nat, g: nat, b: nat)
    requires r < 256 && g < 256 && b < 256
    ensures r * 65536 + g * 256 + b < 16777216
    ensures Rgb(r * 65536 + g * 256 + b) == Components(255, r, g, b)
  {
    SplitBytes(r, g, b);
  }

  /** The 32-bit form takes four bytes apart again. */
  lemma ArgbOfBytes(a: nat, r: nat, g: nat, b: nat)
    requires a < 256 && r < 256 && g < 256 && b < 256
    ensures a * 16777216 + r * 65536 + g * 256 + b < 4294967296
    ensures Argb(a * 16777216 + r * 65536 + g * 256 + b) == Components(a, r, g, b)
  {
    SplitWord(a, r, g, b);
  }

  function ArgbFromHex(hex: string): (c: Components)
    ensures |Trim(hex)| in {3, 6, 8} ==>
      0 <= c.alpha <= 255 && 0 <= c.red <= 255 && 0 <= c.green <= 255 && 0 <= c.blue <= 255
    ensures |Trim(hex)| in {3, 6} ==> c.alpha == 255
    ensures |Trim(hex)| !in {3, 6, 8} ==> c == Fallback
  {
    var t := Trim(hex);
    if |t| == 3 then
      assert Pow16(3) == 4096;
      ShortRgb(ScanHex(t))
    else if |t| == 6 then
      assert Pow16(6) == 16777216;
      Rgb(ScanHex(t))
    else if |t| == 8 then
      assert Pow16(8) == 4294967296;
      Argb(ScanHex(t))
    else Fallback
  }

  /** With three characters the parser is the 12-bit form of the scanned value. */
  lemma ShortForm(hex: string)
    requires |Trim(hex)| == 3
    ensures ScanHex(Trim(hex)) < 4096
    ensures ArgbFromHex(hex) == ShortRgb(ScanHex(Trim(hex)))
  {
    assert Pow16(3) == 4096;
  }

  /** With eight characters the parser is the 32-bit form of the scanned value. */
  lemma LongForm(hex: string)
    requires |Trim(hex)| == 8
    ensures ScanHex(Trim(hex)) < 4294967296
    ensures ArgbFromHex(hex) == Argb(ScanHex(Trim(hex)))
  {
    assert Pow16(8) == 4294967296;
  }

  /** With six characters the parser is the 24-bit form of the scanned value. */
  lemma MiddleForm(hex: string)
    requires |Trim(hex)| == 6
    ensures ScanHex(Trim(hex)) < 16777216
    ensures ArgbFromHex(hex) == Rgb(ScanHex(Trim(hex)))
  {
    assert Pow16(6) == 16777216;
  }

  /** Below 2^24 the unmasked top byte equals the masked one. */
  lemma RgbIsMasked(v: nat)
    requires v < 16777216
    ensures Rgb(v) == ColorHex.MaskedRgb(v)
  {
    DivModUnique(v / 65536, 0, v / 65536, 256);
  }
}

/** What the ARGB parser reads: each accepted length, the round trip, and how it compares with the RGB parser. */
module ArgbHexFacts {
  import opened Hex
  import opened ArgbHex
  import ColorHex

  /** Three digits: each one, times 17, is a channel ("F" becomes 255, "8" becomes 136). */
  lemma ArgbReadsShortForm(hex: string)
    requires |Trim(hex)| == 3 && AllHex(Trim(hex))
    ensures var t := Trim(hex);
      ArgbFromHex(hex) == Components(255, HexDigitValue(t[0]) * 17, HexDigitValue(t[1]) * 17, HexDigitValue(t[2]) * 17)
  {
    var t := Trim(hex);
    ScanHexOfDigits(t);
    HexNibbles3(t);
    var x, y, z := HexDigitValue(t[0]), HexDigitValue(t[1]), HexDigitValue(t[2]);
    assert ScanHex(t) == x * 256 + y * 16 + z;
    ShortForm(hex);
    ShortRgbOfNibbles(x, y, z);
  }

  /** Six digits: opaque, with the three bytes as red, green and blue. */
  lemma {:induction false} ArgbReadsRgb(hex: string)
    requires |Trim(hex)| == 6 && AllHex(Trim(hex))
    ensures var t := Trim(hex);
      AllHex(t[..2]) && AllHex(t[2..4]) && AllHex(t[4..]) &&
      ArgbFromHex(hex) == Components(255, HexValue(t[..2]), HexValue(t[2..4]), HexValue(t[4..]))
  {
    var t := Trim(hex);
    HexBytes3(t);
    var r, g, b := HexValue(t[..2]), HexValue(t[2..4]), HexValue(t[4..]);
    assert ScanHex(t) == r * 65536 + g * 256 + b by {
      ScanHexOfDigits(t);
    }
    assert ArgbFromHex(hex) == Rgb(r * 65536 + g * 256 + b) by {
      MiddleForm(hex);
    }
    RgbOfBytes(r, g, b);
  }

  /** Eight digits: alpha first, then red, green and blue. */
  lemma {:induction false} ArgbReadsArgb(hex: string)
    requires |Trim(hex)| == 8 && AllHex(Trim(hex))
    ensures var t := Trim(hex);
      AllHex(t[..2]) && AllHex(t[2..4]) && AllHex(t[4..6]) && AllHex(t[6..]) &&
      ArgbFromHex(hex) == Components(HexValue(t[..2]), HexValue(t[2..4]), HexValue(t[4..6]), HexValue(t[6..]))
  {
    var t := Trim(hex);
    HexBytes4(t);
    var a, r, g, b := HexValue(t[..2]), HexValue(t[2..4]), HexValue(t[4..6]), HexValue(t[6..]);
    assert ScanHex(t) == a * 16777216 + r * 65536 + g * 256 + b by {
      ScanHexOfDigits(t);
    }
    assert ArgbFromHex(hex) == Argb(a * 16777216 + r * 65536 + g * 256 + b) by {
      LongForm(hex);
    }
    ArgbOfBytes(a, r, g, b);
  }

  /** "FFF" (with or without a leading mark) is opaque white. */
  lemma ShortWhite(hex: string)
    requires |Trim(hex)| == 3 && forall k :: 0 <= k < 3 ==> Trim(hex)[k] == 'F'
    ensures ArgbFromHex(hex) == Components(255, 255, 255, 255)
  {
    ArgbReadsShortForm(hex);
  }

  /** "#" and eight formatted digits parse as the 32-bit form of the number. */
  lemma EncodedWord(v: nat)
    requires v < 4294967296
    ensures Pow16(8) == 4294967296
    ensures ArgbFromHex("#" + FormatHex(v, 8)) == Argb(v)
  {
    assert Pow16(8) == 4294967296;
    FormatHexScans(v, 8);
    LongForm("#" + FormatHex(v, 8));
  }

  /** Writing (a, r, g, b) as "#" and eight digits and parsing it gives the colour back. */
  lemma {:induction false} ArgbRoundTrip(a: nat, r: nat, g: nat, b: nat)
    requires a < 256 && r < 256 && g < 256 && b < 256
    ensures ArgbFromHex("#" + FormatHex(a * 16777216 + r * 65536 + g * 256 + b, 8)) == Components(a, r, g, b)
  {
    ArgbOfBytes(a, r, g, b);
    EncodedWord(a * 16777216 + r * 65536 + g * 256 + b);
  }

  /**
   * On six characters the two parsers agree; on a length other than 3, 6 or 8 they differ:
   * Helpers/Color+Hex.swift gives opaque white and this one (1, 1, 1, 0).
   */
  lemma ParsersAgreeOnSixDigits(hex: string)
    ensures |Trim(hex)| == 6 ==> ArgbFromHex(hex) == ColorHex.ColorFromHex(hex)
    ensures |Trim(hex)| !in {3, 6, 8} ==> ArgbFromHex(hex) != ColorHex.ColorFromHex(hex)
  {
    var t := Trim(hex);
    if |t| == 6 {
      MiddleForm(hex);
      ColorHex.SixForm(hex);
      RgbIsMasked(ScanHex(t));
    }
  }
}
