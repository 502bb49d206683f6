/**
 * The steps shared by both `Color.init(hex:)` parsers: trimming the string of everything that
 * is not a letter or digit at either end, and `Scanner.scanHexInt64`, which reads the leading
 * run of hexadecimal digits as a number.
 */
module Hex {
  /**
   * A parsed colour as integer channels; SwiftUI receives each as `Double(x) / 255`, so
   * `alpha == 255` is opacity 1.
   */
  datatype Components = Components(alpha: int, red: int, green: int, blue: int)

  /** Letters and digits (the ASCII part of `CharacterSet.alphanumerics`). */
  predicate IsAlnum(c: char) {
    ('0' <= c <= '9') || ('a' <= c <= 'z') || ('A' <= c <= 'Z')
  }

  predicate IsHexDigit(c: char) {
    ('0' <= c <= '9') || ('a' <= c <= 'f') || ('A' <= c <= 'F')
  }

  predicate AllHex(s: string) {
    forall k :: 0 <= k < |s| ==> IsHexDigit(s[k])
  }

  /** `s` without its leading characters that are not letters or digits. */
  function TrimStart(s: string): (t: string)
    ensures |t| <= |s| && t == s[|s| - |t|..]
    ensures t != [] ==> IsAlnum(t[0])
    ensures forall k :: 0 <= k < |s| - |t| ==> !IsAlnum(s[k])
  {
    if s == [] || IsAlnum(s[0]) then s else TrimStart(s[1..])
  }

  /** `s` without its trailing characters that are not letters or digits. */
  function TrimEnd(s: string): (t: string)
    ensures |t| <= |s| && t == s[..|t|]
    ensures t != [] ==> IsAlnum(t[|t| - 1])
    ensures forall k :: |t| <= k < |s| ==> !IsAlnum(s[k])
  {
    if s == [] || IsAlnum(s[|s| - 1]) then s else TrimEnd(s[..|s| - 1])
  }

  /** `trimmingCharacters(in: CharacterSet.alphanumerics.inverted)`. */
  function Trim(s: string): (t: string)
    ensures |t| <= |s|
    ensures t != [] ==> IsAlnum(t[0]) && IsAlnum(t[|t| - 1])
  {
    TrimEnd(TrimStart(s))
  }

  /** A string of hexadecimal digits is left as it is. */
  lemma TrimHex(s: string)
    requires AllHex(s)
    ensures Trim(s) == s
  {
  }

  /** A leading "#" (or any other non-alphanumeric character) makes no difference. */
  lemma TrimIgnoresLeadingMark(c: char, s: string)
    requires !IsAlnum(c)
    ensures Trim([c] + s) == Trim(s)
  {
    assert ([c] + s)[1..] == s;
  }

  function HexDigitValue(c: char): (d: nat)
    requires IsHexDigit(c)
    ensures d < 16
  {
    if '0' <= c <= '9' then (c as int - '0' as int) as nat
    else if 'a' <= c <= 'f' then (c as int - 'a' as int + 10) as nat
    else (c as int - 'A' as int + 10) as nat
  }

  function HexChar(d: nat): (c: char)
    requires d < 16
    ensures IsHexDigit(c) && HexDigitValue(c) == d
  {
    "0123456789ABCDEF"[d]
  }

  function Pow16(k: nat): (p: nat)
    ensures p >= 1
  {
    if k == 0 then 1 else 16 * Pow16(k - 1)
  }

  lemma {:induction false} Pow16Monotone(j: nat, k: nat)
    requires j <= k
    ensures Pow16(j) <= Pow16(k)
    decreases k
  {
    if j < k {
      Pow16Monotone(j, k - 1);
    }
  }

  /** The number a string of hexadecimal digits denotes, most significant digit first. */
  function HexValue(s: string): (v: nat)
    requires AllHex(s)
    ensures v < Pow16(|s|)
  {
    if s == [] then 0 else 16 * HexValue(s[..|s| - 1]) + HexDigitValue(s[|s| - 1])
  }

  /** Reading digits in two pieces. */
  lemma {:induction false} HexValueAppend(a: string, b: string)
    requires AllHex(a) && AllHex(b)
    ensures AllHex(a + b)
    ensures HexValue(a + b) == HexValue(a) * Pow16(|b|) + HexValue(b)
    decreases |b|
  {
    assert AllHex(a + b) by {
      forall k | 0 <= k < |a + b| ensures IsHexDigit((a + b)[k]) {
        if k < |a| { assert (a + b)[k] == a[k]; } else { assert (a + b)[k] == b[k - |a|]; }
      }
    }
    if b != [] {
      var b', c := b[..|b| - 1], b[|b| - 1];
      assert (a + b)[..|a + b| - 1] == a + b';
      HexValueAppend(a, b');
      var x, p, y, d := HexValue(a), Pow16(|b'|), HexValue(b'), HexDigitValue(c);
      assert HexValue(a + b) == 16 * HexValue(a + b') + d;
      assert HexValue(b) == 16 * y + d;
      assert Pow16(|b|) == 16 * p;
      Regroup(x, p, y, d);
    } else {
      assert a + b == a;
    }
  }

  lemma Regroup(x: int, p: int, y: int, d: int)
    ensures 16 * (x * p + y) + d == x * (16 * p) + (16 * y + d)
  {
  }

  /** The length of the leading run of hexadecimal digits. */
  function HexPrefixLen(s: string): (n: nat)
    ensures n <= |s|
    ensures AllHex(s[..n])
    ensures n < |s| ==> !IsHexDigit(s[n])
  {
    if s == [] || !IsHexDigit(s[0]) then 0 else 1 + HexPrefixLen(s[1..])
  }

  /**
   * `Scanner(string: s).scanHexInt64(&int)` starting from `int == 0`: the value of the leading
   * hexadecimal digits (0 when there are none). Bounded by the string's length.
   */
  function ScanHex(s: string): (v: nat)
    ensures v < Pow16(|s|)
  {
    var n := HexPrefixLen(s);
    Pow16Monotone(n, |s|);
    HexValue(s[..n])
  }

  lemma {:induction false} HexPrefixOfDigits(s: string)
    requires AllHex(s)
    ensures HexPrefixLen(s) == |s|
  {
    if s != [] {
      HexPrefixOfDigits(s[1..]);
    }
  }

  lemma ScanHexOfDigits(s: string)
    requires AllHex(s)
    ensures ScanHex(s) == HexValue(s)
  {
    HexPrefixOfDigits(s);
    assert s[..|s|] == s;
  }

  /** `n` written with exactly `width` upper-case hexadecimal digits. */
  function FormatHex(n: nat, width: nat): (s: string)
    requires n < Pow16(width)
    ensures |s| == width && AllHex(s)
    decreases width
  {
    if width == 0 then [] else FormatHex(n / 16, width - 1) + [HexChar(n % 16)]
  }

  lemma {:induction false} FormatHexRoundTrip(n: nat, width: nat)
    requires n < Pow16(width)
    ensures HexValue(FormatHex(n, width)) == n
    decreases width
  {
    if width > 0 {
      var q, d := n / 16, n % 16;
      assert q < Pow16(width - 1) by {
        assert Pow16(width) == 16 * Pow16(width - 1);
      }
      var s := FormatHex(n, width);
      var front := FormatHex(q, width - 1);
      assert s == front + [HexChar(d)];
      assert s[..|s| - 1] == front && s[|s| - 1] == HexChar(d);
      FormatHexRoundTrip(q, width - 1);
      assert HexValue(s) == 16 * q + d;
    }
  }

  /** "#" followed by formatted digits trims to those digits, which scan back to the number. */
  lemma FormatHexScans(n: nat, width: nat)
    requires n < Pow16(width)
    ensures Trim("#" + FormatHex(n, width)) == FormatHex(n, width)
    ensures ScanHex(FormatHex(n, width)) == n
  {
    var digits := FormatHex(n, width);
    TrimIgnoresLeadingMark('#', digits);
    TrimHex(digits);
    ScanHexOfDigits(digits);
    FormatHexRoundTrip(n, width);
  }

  /** Two hexadecimal digits are one byte. */
  lemma ByteOfTwoDigits(s: string)
    requires |s| == 2 && AllHex(s)
    ensures HexValue(s) < 256
  {
  }

  lemma DivModUnique(x: int, q: int, m: int, d: int)
    requires d > 0 && 0 <= m < d && x == q * d + m
    ensures x / d == q && x % d == m
  {
    var q', m' := x / d, x % d;
    assert x == q' * d + m';
    assert (q - q') * d == m' - m;
    if q > q' {
      AtLeastOnce(q - q', d);
    } else if q < q' {
      AtLeastOnce(q' - q, d);
    }
  }

  lemma AtLeastOnce(k: int, d: int)
    requires k >= 1 && d > 0
    ensures k * d >= d
  {
  }

  /** `(v >> 16) & 0xFF`, `(v >> 8) & 0xFF` and `v & 0xFF` recover the three bytes of v. */
  lemma SplitBytes(r: nat, g: nat, b: nat)
    requires r < 256 && g < 256 && b < 256
    ensures var v := r * 65536 + g * 256 + b;
      v / 65536 == r && v / 65536 % 256 == r && v / 256 % 256 == g && v % 256 == b
  {
    var v := r * 65536 + g * 256 + b;
    DivModUnique(v, r * 256 + g, b, 256);
    DivModUnique(r * 256 + g, r, g, 256);
    DivModUnique(v, r, g * 256 + b, 65536);
    DivModUnique(r, 0, r, 256);
  }

  /** The same for four bytes, with `v >> 24` for the top one. */
  lemma SplitWord(a: nat, r: nat, g: nat, b: nat)
    requires a < 256 && r < 256 && g < 256 && b < 256
    ensures var v := a * 16777216 + r * 65536 + g * 256 + b;
      v / 16777216 == a && v / 65536 % 256 == r && v / 256 % 256 == g && v % 256 == b
  {
    var v := a * 16777216 + r * 65536 + g * 256 + b;
    var low := r * 65536 + g * 256 + b;
    DivModUnique(v, a, low, 16777216);
    DivModUnique(v, a * 65536 + r * 256 + g, b, 256);
    DivModUnique(a * 65536 + r * 256 + g, a * 256 + r, g, 256);
    DivModUnique(v, a * 256 + r, g * 256 + b, 65536);
    DivModUnique(a * 256 + r, a, r, 256);
  }

  /** `(v >> 8)`, `(v >> 4) & 0xF` and `v & 0xF` recover the three nibbles of v. */
  lemma SplitNibbles(x: nat, y: nat, z: nat)
    requires x < 16 && y < 16 && z < 16
    ensures var v := x * 256 + y * 16 + z;
      v / 256 == x && v / 16 % 16 == y && v % 16 == z
  {
    var v := x * 256 + y * 16 + z;
    DivModUnique(v, x, y * 16 + z, 256);
    DivModUnique(v, x * 16 + y, z, 16);
    DivModUnique(x * 16 + y, x, y, 16);
  }

  /** Six hexadecimal digits read as three two-digit bytes. */
  lemma {:induction false} HexBytes3(t: string)
    requires |t| == 6 && AllHex(t)
    ensures AllHex(t[..2]) && AllHex(t[2..4]) && AllHex(t[4..])
    ensures HexValue(t) == HexValue(t[..2]) * 65536 + HexValue(t[2..4]) * 256 + HexValue(t[4..])
    ensures HexValue(t[..2]) < 256 && HexValue(t[2..4]) < 256 && HexValue(t[4..]) < 256
  {
    assert t[..2] + t[2..4] == t[..4];
    assert t[..4] + t[4..] == t;
    HexValueAppend(t[..2], t[2..4]);
    HexValueAppend(t[..4], t[4..]);
    assert Pow16(2) == 256;
  }

  /** Eight hexadecimal digits read as four two-digit bytes. */
  lemma HexBytes4(t: string)
    requires |t| == 8 && AllHex(t)
    ensures AllHex(t[..2]) && AllHex(t[2..4]) && AllHex(t[4..6]) && AllHex(t[6..])
    ensures HexValue(t) == HexValue(t[..2]) * 16777216 + HexValue(t[2..4]) * 65536 + HexValue(t[4..6]) * 256 + HexValue(t[6..])
    ensures HexValue(t[..2]) < 256 && HexValue(t[2..4]) < 256 && HexValue(t[4..6]) < 256 && HexValue(t[6..]) < 256
  {
    assert t[..2] + t[2..4] == t[..4];
    assert t[..4] + t[4..6] == t[..6];
    assert t[..6] + t[6..] == t;
    assert Pow16(2) == 256;
    HexValueAppend(t[..2], t[2..4]);
    HexValueAppend(t[..4], t[4..6]);
    HexValueAppend(t[..6], t[6..]);
    Horner4(HexValue(t[..2]), HexValue(t[2..4]), HexValue(t[4..6]), HexValue(t[6..]));
  }

  /** Reading four bytes one after another, most significant first. */
  lemma Horner4(a: int, b: int, c: int, d: int)
    ensures ((a * 256 + b) * 256 + c) * 256 + d == a * 16777216 + b * 65536 + c * 256 + d
  {
    assert (a * 256 + b) * 256 == a * 65536 + b * 256;
    assert (a * 65536 + b * 256 + c) * 256 == a * 16777216 + b * 65536 + c * 256;
  }

  /** Three hexadecimal digits read digit by digit. */
  lemma HexNibbles3(t: string)
    requires |t| == 3 && AllHex(t)
    ensures HexValue(t) == HexDigitValue(t[0]) * 256 + HexDigitValue(t[1]) * 16 + HexDigitValue(t[2])
  {
    var t2, t1 := t[..2], t[..1];
    assert t[..|t| - 1] == t2 && t2[..|t2| - 1] == t1 && t1[..|t1| - 1] == [];
    assert t2[|t2| - 1] == t[1] && t1[0] == t[0];
    assert HexValue(t1) == HexDigitValue(t[0]);
    assert HexValue(t2) == 16 * HexDigitValue(t[0]) + HexDigitValue(t[1]);
  }
}
