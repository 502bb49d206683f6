/** Helpers/Color+Hex.swift: `Color.init(hex:)` for "#RRGGBB" strings, white otherwise. */
module ColorHex {
  import opened Hex

  const White := Components(255, 255, 255, 255)

  /** `((v >> 16) & 0xFF, (v >> 8) & 0xFF, v & 0xFF)` at opacity 1. */
  function MaskedRgb(v: nat): (c: Components)
    ensures c.alpha == 255
    ensures 0 <= c.red <= 255 && 0 <= c.green <= 255 && 0 <= c.blue <= 255
  {
    Components(255, v / 65536 % 256, v / 256 % 256, v % 256)
  }

  /** The masks take three bytes apart again. */
  lemma MaskedRgbOfBytes(r: nat, g: nat, b: nat)
    requires r < 256 && g < 256 && b < 256
    ensures MaskedRgb(r * 65536 + g * 256 + b) == Components(255, r, g, b)
  {
    SplitBytes(r, g, b);
  }

  function ColorFromHex(hex: string): (c: Components)
    ensures c.alpha == 255
    ensures 0 <= c.red <= 255 && 0 <= c.green <= 255 && 0 <= c.blue <= 255
    ensures |Trim(hex)| != 6 ==> c == White
  {
    var t := Trim(hex);
    if |t| == 6 then MaskedRgb(ScanHex(t)) else White
  }

  /** With six characters the parser is the masked 24-bit form of the scanned value. */
  lemma SixForm(hex: string)
    requires |Trim(hex)| == 6
    ensures ColorFromHex(hex) == MaskedRgb(ScanHex(Trim(hex)))
  {
  }
}

/** What the RGB parser reads: six digits, a leading mark, and the round trip. */
module ColorHexFacts {
  import opened Hex
  import opened ColorHex

  /** Six hexadecimal digits give their three two-digit bytes as red, green and blue. */
  lemma ColorFromHexReadsBytes(hex: string)
    requires |Trim(hex)| == 6 && AllHex(Trim(hex))
    ensures var t := Trim(hex);
      AllHex(t[..2]) && AllHex(t[2..4]) && AllHex(t[4..]) &&
      ColorFromHex(hex) == Components(255, HexValue(t[..2]), HexValue(t[2..4]), HexValue(t[4..]))
  {
    var t := Trim(hex);
    ScanHexOfDigits(t);
    HexBytes3(t);
    var r, g, b := HexValue(t[..2]), HexValue(t[2..4]), HexValue(t[4..]);
    assert ScanHex(t) == r * 65536 + g * 256 + b;
    SixForm(hex);
    MaskedRgbOfBytes(r, g, b);
  }

  /** "#RRGGBB" and "RRGGBB" give the same colour. */
  lemma HashMarkIgnored(s: string)
    ensures ColorFromHex("#" + s) == ColorFromHex(s)
  {
    TrimIgnoresLeadingMark('#', s);
  }

  /** Writing a colour as "#" and six hexadecimal digits and parsing it gives the colour back. */
  lemma ColorFromHexRoundTrip(r: nat, g: nat, b: nat)
    requires r < 256 && g < 256 && b < 256
    ensures ColorFromHex("#" + FormatHex(r * 65536 + g * 256 + b, 6)) == Components(255, r, g, b)
  {
    var v := r * 65536 + g * 256 + b;
    assert Pow16(6) == 16777216;
    FormatHexScans(v, 6);
    SixForm("#" + FormatHex(v, 6));
    MaskedRgbOfBytes(r, g, b);
  }
}
