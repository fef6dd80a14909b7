/**
 * The colour transform of planet-logic.ts: `hexToHSL`, `hslToHex` and
 * `artColor`.
 *
 * Colours are `#rrggbb` strings. The arithmetic is done on `real`, so the
 * model is the exact-arithmetic reading of the floating-point code:
 * `Math.round(x)` is `Floor(x + 0.5)`, JavaScript's `%` on numbers is the
 * truncated remainder `Rem`, and `Number.prototype.toString(16)` followed by
 * `padStart(2, '0')` is `ByteHex`. `hslToHex` is the HSL-to-sRGB formula of
 * CSS Color Module Level 4, section 7.
 */
module Color {

  datatype Hsl = Hsl(h: real, s: real, l: real)

  function Max(x: real, y: real): real { if x >= y then x else y }
  function Min(x: real, y: real): real { if x <= y then x else y }

  // ---------------------------------------------------------------------------
  // Hex digits and strings

  predicate IsHexDigit(c: char) {
    '0' <= c <= '9' || 'a' <= c <= 'f' || 'A' <= c <= 'F'
  }

  predicate IsLowerHexDigit(c: char) {
    '0' <= c <= '9' || 'a' <= c <= 'f'
  }

  /** A well-formed `#rrggbb` colour, as every catalog colour is. */
  predicate IsHexColor(s: string) {
    |s| == 7 && s[0] == '#' && forall i :: 1 <= i < 7 ==> IsHexDigit(s[i])
  }

  /** A `#rrggbb` colour in the lower case `toString(16)` produces. */
  predicate IsLowerHexColor(s: string) {
    |s| == 7 && s[0] == '#' && forall i :: 1 <= i < 7 ==> IsLowerHexDigit(s[i])
  }

  /** The value `parseInt(c, 16)` gives a single digit. */
  function DigitValue(c: char): (v: nat)
    requires IsHexDigit(c)
    ensures v < 16
  {
    if '0' <= c <= '9' then c as int - '0' as int
    else if 'a' <= c <= 'f' then c as int - 'a' as int + 10
    else c as int - 'A' as int + 10
  }

  /** The digit `toString(16)` writes for a value below 16. */
  function HexChar(v: nat): (c: char)
    requires v < 16
    ensures IsLowerHexDigit(c)
  {
    if v < 10 then ('0' as int + v) as char else ('a' as int + v - 10) as char
  }

  /** `parseInt(hex.substring(i, i + 2), 16)` for two hex digits. */
  function ParseByte(hex: string, i: nat): (v: nat)
    requires i + 2 <= |hex| && IsHexDigit(hex[i]) && IsHexDigit(hex[i + 1])
    ensures v < 256
  {
    16 * DigitValue(hex[i]) + DigitValue(hex[i + 1])
  }

  /** `Number.prototype.toString(16)` of a non-negative integer. */
  function NatToHex(n: nat): (s: string)
    ensures |s| >= 1
    decreases n
  {
    if n < 16 then [HexChar(n)] else NatToHex(n / 16) + [HexChar(n % 16)]
  }

  /** `Number.prototype.toString(16)` of an integer: a minus sign, then the digits. */
  function IntToHex(n: int): string
  {
    if n < 0 then "-" + NatToHex(-n) else NatToHex(n)
  }

  /** `s.padStart(2, '0')`. */
  function PadStart2(s: string): string
  {
    if |s| == 0 then "00" else if |s| == 1 then "0" + s else s
  }

  /** What one channel of `hslToHex` writes for the rounded channel value `n`. */
  function ByteHex(n: int): string
  {
    PadStart2(IntToHex(n))
  }

  // ---------------------------------------------------------------------------
  // Number helpers: Math.round and JavaScript's `%`

  /** `Math.round`. */
  function Round(x: real): int
  {
    (x + 0.5).Floor
  }

  /** Truncation toward zero. */
  function Trunc(x: real): int
  {
    if x >= 0.0 then x.Floor else -((-x).Floor)
  }

  /** JavaScript's `x % m` on numbers: the remainder of truncated division. */
  function Rem(x: real, m: real): real
    requires m != 0.0
  {
    x - m * Trunc(x / m) as real
  }

  // ---------------------------------------------------------------------------
  // hexToHSL

  /** `hexToHSL` on channels already scaled to [0, 1]. */
  function RgbToHsl(r: real, g: real, b: real): (c: Hsl)
    requires 0.0 <= r <= 1.0 && 0.0 <= g <= 1.0 && 0.0 <= b <= 1.0
    ensures 0.0 <= c.h < 360.0 && 0.0 <= c.s <= 100.0 && 0.0 <= c.l <= 100.0
  {
    var mx := Max(Max(r, g), b);
    var mn := Min(Min(r, g), b);
    var l := (mx + mn) / 2.0;
    if mx == mn then
      Hsl(0.0, 0.0, l * 100.0)
    else
      var d := mx - mn;
      var s := if l > 0.5 then SatHigh(mx, mn) else SatLow(mx, mn);
      var h6 := if mx == r then HueR(r, g, b)
                else if mx == g then HueG(r, g, b)
                else HueB(r, g, b);
      Hsl(h6 / 6.0 * 360.0, s * 100.0, l * 100.0)
  }

  /** `d / (2 - max - min)`, the saturation of a light colour. */
  function SatHigh(mx: real, mn: real): (s: real)
    requires 0.0 <= mn < mx <= 1.0
    ensures 0.0 <= s <= 1.0
  {
    RatioBound(mx - mn, 2.0 - mx - mn);
    (mx - mn) / (2.0 - mx - mn)
  }

  /** `d / (max + min)`, the saturation of a dark colour. */
  function SatLow(mx: real, mn: real): (s: real)
    requires 0.0 <= mn < mx <= 1.0
    ensures 0.0 <= s <= 1.0
  {
    RatioBound(mx - mn, mx + mn);
    (mx - mn) / (mx + mn)
  }

  /** The hue, in sixths of a turn, when red is the largest channel. */
  function HueR(r: real, g: real, b: real): (h6: real)
    requires r >= g && r >= b && r > Min(g, b)
    ensures 0.0 <= h6 < 6.0
  {
    var d := r - Min(g, b);
    SignedRatioBound(g - b, d);
    (g - b) / d + (if g < b then 6.0 else 0.0)
  }

  /** The hue, in sixths of a turn, when green is the largest channel. */
  function HueG(r: real, g: real, b: real): (h6: real)
    requires g >= r && g >= b && g > Min(r, b)
    ensures 1.0 <= h6 <= 3.0
  {
    var d := g - Min(r, b);
    SignedRatioBound(b - r, d);
    (b - r) / d + 2.0
  }

  /** The hue, in sixths of a turn, when blue is the largest channel. */
  function HueB(r: real, g: real, b: real): (h6: real)
    requires b >= r && b >= g && b > Min(r, g)
    ensures 3.0 <= h6 <= 5.0
  {
    var d := b - Min(r, g);
    SignedRatioBound(r - g, d);
    (r - g) / d + 4.0
  }

  lemma RatioBound(x: real, y: real)
    requires 0.0 < x <= y
    ensures 0.0 < x / y <= 1.0
  {
  }

  lemma SignedRatioBound(x: real, d: real)
    requires 0.0 < d && -d <= x <= d
    ensures -1.0 <= x / d <= 1.0
    ensures x < 0.0 ==> x / d < 0.0
    ensures x >= 0.0 ==> x / d >= 0.0
  {
    var q := x / d;
    assert q * d == x;
    if q > 1.0 { MulLeft(1.0, q, d); }
    if q < -1.0 { MulLeft(q, -1.0, d); }
  }

  lemma MulLeft(x: real, y: real, z: real)
    requires x < y && 0.0 < z
    ensures x * z < y * z
  {
  }

  lemma MulLe(x: real, y: real, z: real)
    requires x <= y && 0.0 <= z
    ensures x * z <= y * z
  {
  }

  /** The red, green and blue channels of a colour, each in [0, 1]. */
  function Red(hex: string): real requires IsHexColor(hex) { ParseByte(hex, 1) as real / 255.0 }
  function Green(hex: string): real requires IsHexColor(hex) { ParseByte(hex, 3) as real / 255.0 }
  function Blue(hex: string): real requires IsHexColor(hex) { ParseByte(hex, 5) as real / 255.0 }

  /** `hexToHSL`: hue in degrees, saturation and lightness in percent. */
  function HexToHsl(hex: string): (c: Hsl)
    requires IsHexColor(hex)
    ensures 0.0 <= c.h < 360.0 && 0.0 <= c.s <= 100.0 && 0.0 <= c.l <= 100.0
  {
    RgbToHsl(Red(hex), Green(hex), Blue(hex))
  }

  // ---------------------------------------------------------------------------
  // hslToHex

  /** `Math.max(Math.min(k - 3, 9 - k, 1), -1)`. */
  function Tent(k: real): (t: real)
    ensures -1.0 <= t <= 1.0
  {
    Max(Min(Min(k - 3.0, 9.0 - k), 1.0), -1.0)
  }

  /** The channel `f(n)` computes before rounding, for lightness `l` in [0, 1] and chroma half-width `a`. */
  function ChannelValue(n: real, h: real, l: real, a: real): real
  {
    var k := Rem(n + h / 30.0, 12.0);
    l - a * Tent(k)
  }

  /** The chroma half-width `a = s * min(l, 1 - l) / 100` for lightness `l` already in [0, 1]. */
  function Chroma(s: real, l: real): real
  {
    s * Min(l, 1.0 - l) / 100.0
  }

  /** The two hex digits `f(n)` returns. */
  function ChannelHex(n: real, h: real, l: real, a: real): string
  {
    ByteHex(Round(255.0 * ChannelValue(n, h, l, a)))
  }

  /** `hslToHex(h, s, l)` for any numbers. */
  function HslToHex(h: real, s: real, l: real): string
  {
    var l' := l / 100.0;
    var a := Chroma(s, l');
    "#" + ChannelHex(0.0, h, l', a) + ChannelHex(8.0, h, l', a) + ChannelHex(4.0, h, l', a)
  }

  /** For saturation and lightness in [0, 100] the output is `#` and exactly six hex digits. */
  lemma HslToHexWellFormed(h: real, s: real, l: real)
    requires 0.0 <= s <= 100.0 && 0.0 <= l <= 100.0
    ensures IsLowerHexColor(HslToHex(h, s, l)) && IsHexColor(HslToHex(h, s, l))
  {
    var l' := l / 100.0;
    var a := Chroma(s, l');
    ChannelInByte(0.0, h, s, l');
    ChannelInByte(8.0, h, s, l');
    ChannelInByte(4.0, h, s, l');
    HexColorOfDigits(ChannelHex(0.0, h, l', a), ChannelHex(8.0, h, l', a), ChannelHex(4.0, h, l', a));
  }

  lemma HexColorOfDigits(x: string, y: string, z: string)
    requires |x| == 2 && IsLowerHexDigit(x[0]) && IsLowerHexDigit(x[1])
    requires |y| == 2 && IsLowerHexDigit(y[0]) && IsLowerHexDigit(y[1])
    requires |z| == 2 && IsLowerHexDigit(z[0]) && IsLowerHexDigit(z[1])
    ensures IsLowerHexColor("#" + x + y + z) && IsHexColor("#" + x + y + z)
  {
    var c := "#" + x + y + z;
    assert c == ['#', x[0], x[1], y[0], y[1], z[0], z[1]];
  }

  /** For saturation and lightness in range every channel lies in [0, 1], so it rounds to a byte. */
  lemma ChannelInByte(n: real, h: real, s: real, l: real)
    requires 0.0 <= s <= 100.0 && 0.0 <= l <= 1.0
    ensures 0.0 <= ChannelValue(n, h, l, Chroma(s, l)) <= 1.0
    ensures 0 <= Round(255.0 * ChannelValue(n, h, l, Chroma(s, l))) <= 255
    ensures var b := ChannelHex(n, h, l, Chroma(s, l));
            |b| == 2 && IsLowerHexDigit(b[0]) && IsLowerHexDigit(b[1])
  {
    var a := Chroma(s, l);
    ChromaBound(s, l);
    var t := Tent(Rem(n + h / 30.0, 12.0));
    assert -a <= a * t <= a by {
      MulLe(t, 1.0, a);
      MulLe(-1.0, t, a);
    }
    var v := ChannelValue(n, h, l, a);
    assert v == l - a * t;
    assert 0.0 <= a <= l && a <= 1.0 - l;
    assert l - a <= v;
    assert v <= l + a;
    assert 0.0 <= v <= 1.0;
    RoundInByte(255.0 * v);
    var x := Round(255.0 * v);
    ByteHexOfByte(x);
    assert ChannelHex(n, h, l, a) == ByteHex(x);
  }

  lemma RoundInByte(y: real)
    requires 0.0 <= y <= 255.0
    ensures 0 <= Round(y) <= 255
  {
    assert 0.5 <= y + 0.5 < 256.0;
  }

  /** The chroma half-width never exceeds the distance of the lightness to black or white. */
  lemma ChromaBound(s: real, l: real)
    requires 0.0 <= s <= 100.0 && 0.0 <= l <= 1.0
    ensures 0.0 <= Chroma(s, l) <= l && Chroma(s, l) <= 1.0 - l
  {
    var m := Min(l, 1.0 - l);
    MulLe(0.0, s, m);
    MulLe(s, 100.0, m);
    var p := s * m;
    assert 0.0 <= p <= 100.0 * m;
    assert Chroma(s, l) == p / 100.0;
  }

  /** `toString(16)` and `padStart(2, '0')` of a byte are its two digits. */
  lemma ByteHexOfByte(n: int)
    requires 0 <= n < 256
    ensures ByteHex(n) == [HexChar(n / 16), HexChar(n % 16)]
  {
    if n >= 16 {
      assert NatToHex(n) == NatToHex(n / 16) + [HexChar(n % 16)];
    }
  }

  // ---------------------------------------------------------------------------
  // hslToHex undoes hexToHSL

  /** Over exact arithmetic `hslToHex` recovers every channel `hexToHSL` started from. */
  lemma RgbHslRoundTrip(r: real, g: real, b: real)
    requires 0.0 <= r <= 1.0 && 0.0 <= g <= 1.0 && 0.0 <= b <= 1.0
    ensures var c := RgbToHsl(r, g, b);
            var l := c.l / 100.0;
            var a := Chroma(c.s, l);
            ChannelValue(0.0, c.h, l, a) == r && ChannelValue(8.0, c.h, l, a) == g && ChannelValue(4.0, c.h, l, a) == b
  {
    var c := RgbToHsl(r, g, b);
    var mx := Max(Max(r, g), b);
    var mn := Min(Min(r, g), b);
    var l := c.l / 100.0;
    var a := Chroma(c.s, l);
    assert l == (mx + mn) / 2.0;
    if mx == mn {
      assert c.s == 0.0 && a == 0.0;
      assert r == g == b == l;
    } else {
      ChromaOfHsl(mx, mn, c.s, l);
      if mx == r {
        assert c.h == HueR(r, g, b) / 6.0 * 360.0;
        SectorR(r, g, b, c.h, l, a);
      } else if mx == g {
        assert c.h == HueG(r, g, b) / 6.0 * 360.0;
        SectorG(r, g, b, c.h, l, a);
      } else {
        assert c.h == HueB(r, g, b) / 6.0 * 360.0;
        SectorB(r, g, b, c.h, l, a);
      }
    }
  }

  /** The round trip when red is the largest channel (hues 300 to 60 degrees). */
  lemma SectorR(r: real, g: real, b: real, h: real, l: real, a: real)
    requires r >= g && r >= b && r > Min(g, b)
    requires h == HueR(r, g, b) / 6.0 * 360.0
    requires l == (r + Min(g, b)) / 2.0 && a == (r - Min(g, b)) / 2.0
    ensures ChannelValue(0.0, h, l, a) == r && ChannelValue(8.0, h, l, a) == g && ChannelValue(4.0, h, l, a) == b
  {
    var mn := Min(g, b);
    var q := (g - b) / (r - mn);
    SignedRatioBound(g - b, r - mn);
    if g >= b {
      SectorRYellow(r, g, b, h, l, a, q);
    } else {
      SectorRMagenta(r, g, b, h, l, a, q);
    }
  }

  /** Red largest, green above blue: hues 0 to 60 degrees. */
  lemma SectorRYellow(r: real, g: real, b: real, h: real, l: real, a: real, q: real)
    requires r >= g >= b && r > b && q == (g - b) / (r - b) && 0.0 <= q <= 1.0
    requires h == q / 6.0 * 360.0
    requires l == (r + b) / 2.0 && a == (r - b) / 2.0
    ensures ChannelValue(0.0, h, l, a) == r && ChannelValue(8.0, h, l, a) == g && ChannelValue(4.0, h, l, a) == b
  {
    SectorFacts(h, l, a, r, b, q, g - b);
    assert h / 30.0 == 2.0 * q;
    RoundTripCase(r, g, b, r, b, h, l, a, -1.0, 1.0 - 2.0 * q, 1.0);
  }

  /** Red largest, blue above green: hues 300 to 360 degrees. */
  lemma SectorRMagenta(r: real, g: real, b: real, h: real, l: real, a: real, q: real)
    requires r >= b > g && q == (g - b) / (r - g) && -1.0 <= q < 0.0
    requires h == (q + 6.0) / 6.0 * 360.0
    requires l == (r + g) / 2.0 && a == (r - g) / 2.0
    ensures ChannelValue(0.0, h, l, a) == r && ChannelValue(8.0, h, l, a) == g && ChannelValue(4.0, h, l, a) == b
  {
    SectorFacts(h, l, a, r, g, q, g - b);
    assert h / 30.0 == 2.0 * q + 12.0;
    RoundTripCase(r, g, b, r, g, h, l, a, -1.0, 1.0, 2.0 * q + 1.0);
  }

  /** The round trip when green is the largest channel (hues 60 to 180 degrees). */
  lemma SectorG(r: real, g: real, b: real, h: real, l: real, a: real)
    requires g >= r && g >= b && g > Min(r, b)
    requires h == HueG(r, g, b) / 6.0 * 360.0
    requires l == (g + Min(r, b)) / 2.0 && a == (g - Min(r, b)) / 2.0
    ensures ChannelValue(0.0, h, l, a) == r && ChannelValue(8.0, h, l, a) == g && ChannelValue(4.0, h, l, a) == b
  {
    var mn := Min(r, b);
    var q := (b - r) / (g - mn);
    SignedRatioBound(b - r, g - mn);
    if b >= r {
      SectorGCyan(r, g, b, h, l, a, q);
    } else {
      SectorGYellow(r, g, b, h, l, a, q);
    }
  }

  /** Green largest, blue above red: hues 120 to 180 degrees. */
  lemma SectorGCyan(r: real, g: real, b: real, h: real, l: real, a: real, q: real)
    requires g >= b >= r && g > r && q == (b - r) / (g - r) && 0.0 <= q <= 1.0
    requires h == (q + 2.0) / 6.0 * 360.0
    requires l == (g + r) / 2.0 && a == (g - r) / 2.0
    ensures ChannelValue(0.0, h, l, a) == r && ChannelValue(8.0, h, l, a) == g && ChannelValue(4.0, h, l, a) == b
  {
    SectorFacts(h, l, a, g, r, q, b - r);
    assert h / 30.0 == 2.0 * q + 4.0;
    RoundTripCase(r, g, b, g, r, h, l, a, 1.0, -1.0, 1.0 - 2.0 * q);
  }

  /** Green largest, red above blue: hues 60 to 120 degrees. */
  lemma SectorGYellow(r: real, g: real, b: real, h: real, l: real, a: real, q: real)
    requires g >= r > b && q == (b - r) / (g - b) && -1.0 <= q < 0.0
    requires h == (q + 2.0) / 6.0 * 360.0
    requires l == (g + b) / 2.0 && a == (g - b) / 2.0
    ensures ChannelValue(0.0, h, l, a) == r && ChannelValue(8.0, h, l, a) == g && ChannelValue(4.0, h, l, a) == b
  {
    SectorFacts(h, l, a, g, b, q, b - r);
    assert h / 30.0 == 2.0 * q + 4.0;
    RoundTripCase(r, g, b, g, b, h, l, a, 2.0 * q + 1.0, -1.0, 1.0);
  }

  /** The round trip when blue is the largest channel (hues 180 to 300 degrees). */
  lemma SectorB(r: real, g: real, b: real, h: real, l: real, a: real)
    requires b >= r && b >= g && b > Min(r, g)
    requires h == HueB(r, g, b) / 6.0 * 360.0
    requires l == (b + Min(r, g)) / 2.0 && a == (b - Min(r, g)) / 2.0
    ensures ChannelValue(0.0, h, l, a) == r && ChannelValue(8.0, h, l, a) == g && ChannelValue(4.0, h, l, a) == b
  {
    var mn := Min(r, g);
    var q := (r - g) / (b - mn);
    SignedRatioBound(r - g, b - mn);
    if r >= g {
      SectorBMagenta(r, g, b, h, l, a, q);
    } else {
      SectorBCyan(r, g, b, h, l, a, q);
    }
  }

  /** Blue largest, red above green: hues 240 to 300 degrees. */
  lemma SectorBMagenta(r: real, g: real, b: real, h: real, l: real, a: real, q: real)
    requires b >= r >= g && b > g && q == (r - g) / (b - g) && 0.0 <= q <= 1.0
    requires h == (q + 4.0) / 6.0 * 360.0
    requires l == (b + g) / 2.0 && a == (b - g) / 2.0
    ensures ChannelValue(0.0, h, l, a) == r && ChannelValue(8.0, h, l, a) == g && ChannelValue(4.0, h, l, a) == b
  {
    SectorFacts(h, l, a, b, g, q, r - g);
    assert h / 30.0 == 2.0 * q + 8.0;
    RoundTripCase(r, g, b, b, g, h, l, a, 1.0 - 2.0 * q, 1.0, -1.0);
  }

  /** Blue largest, green above red: hues 180 to 240 degrees. */
  lemma SectorBCyan(r: real, g: real, b: real, h: real, l: real, a: real, q: real)
    requires b >= g > r && q == (r - g) / (b - r) && -1.0 <= q < 0.0
    requires h == (q + 4.0) / 6.0 * 360.0
    requires l == (b + r) / 2.0 && a == (b - r) / 2.0
    ensures ChannelValue(0.0, h, l, a) == r && ChannelValue(8.0, h, l, a) == g && ChannelValue(4.0, h, l, a) == b
  {
    SectorFacts(h, l, a, b, r, q, r - g);
    assert h / 30.0 == 2.0 * q + 8.0;
    RoundTripCase(r, g, b, b, r, h, l, a, 1.0, 2.0 * q + 1.0, -1.0);
  }

  /** `hslToHex(hexToHSL(hex))` gives back every lower-case colour exactly. */
  lemma HexRoundTrip(hex: string)
    requires IsLowerHexColor(hex)
    ensures IsHexColor(hex)
    ensures var c := HexToHsl(hex); HslToHex(c.h, c.s, c.l) == hex
  {
    var c := HexToHsl(hex);
    var l := c.l / 100.0;
    var a := Chroma(c.s, l);
    ChannelsBack(hex);
    assert HslToHex(c.h, c.s, c.l) == "#" + ChannelHex(0.0, c.h, l, a) + ChannelHex(8.0, c.h, l, a) + ChannelHex(4.0, c.h, l, a);
    HexOfSlices(hex);
  }

  /** A colour is `#` followed by its three pairs of digits. */
  lemma HexOfSlices(hex: string)
    requires |hex| == 7 && hex[0] == '#'
    ensures hex == "#" + hex[1..3] + hex[3..5] + hex[5..7]
  {
  }

  lemma ChannelsBack(hex: string)
    requires IsLowerHexColor(hex)
    ensures IsHexColor(hex)
    ensures var c := HexToHsl(hex);
            var l := c.l / 100.0;
            var a := Chroma(c.s, l);
            ChannelHex(0.0, c.h, l, a) == hex[1..3] &&
            ChannelHex(8.0, c.h, l, a) == hex[3..5] &&
            ChannelHex(4.0, c.h, l, a) == hex[5..7]
  {
    ChannelBack(hex, 0.0, 1);
    ChannelBack(hex, 8.0, 3);
    ChannelBack(hex, 4.0, 5);
  }

  /** Channel `n` of `hslToHex(hexToHSL(hex))` is the pair of digits at `i`. */
  lemma ChannelBack(hex: string, n: real, i: nat)
    requires IsLowerHexColor(hex)
    requires (n == 0.0 && i == 1) || (n == 8.0 && i == 3) || (n == 4.0 && i == 5)
    ensures IsHexColor(hex)
    ensures var c := HexToHsl(hex);
            var l := c.l / 100.0;
            ChannelHex(n, c.h, l, Chroma(c.s, l)) == hex[i..i + 2]
  {
    var c := HexToHsl(hex);
    var l := c.l / 100.0;
    ChannelValueBack(hex, n, i);
    ByteBack(hex, i, ChannelValue(n, c.h, l, Chroma(c.s, l)));
  }

  /** Before rounding, channel `n` of the round trip is exactly the channel parsed at `i`. */
  lemma ChannelValueBack(hex: string, n: real, i: nat)
    requires IsHexColor(hex)
    requires (n == 0.0 && i == 1) || (n == 8.0 && i == 3) || (n == 4.0 && i == 5)
    ensures var c := HexToHsl(hex);
            var l := c.l / 100.0;
            ChannelValue(n, c.h, l, Chroma(c.s, l)) == ParseByte(hex, i) as real / 255.0
  {
    var r, g, b := Red(hex), Green(hex), Blue(hex);
    assert HexToHsl(hex) == RgbToHsl(r, g, b);
    RgbHslRoundTrip(r, g, b);
  }

  /** Parsing two lower-case digits, scaling to [0, 1] and back, then formatting, returns the digits. */
  lemma ByteBack(hex: string, i: nat, x: real)
    requires i + 2 <= |hex| && IsLowerHexDigit(hex[i]) && IsLowerHexDigit(hex[i + 1])
    requires x == ParseByte(hex, i) as real / 255.0
    ensures ByteHex(Round(255.0 * x)) == hex[i..i + 2]
  {
    var v := ParseByte(hex, i);
    assert 255.0 * x == v as real;
    assert Round(v as real) == v;
    ByteHexOfByte(v);
    assert v / 16 == DigitValue(hex[i]) && v % 16 == DigitValue(hex[i + 1]);
    DigitBack(hex[i]);
    DigitBack(hex[i + 1]);
  }

  lemma DigitBack(c: char)
    requires IsLowerHexDigit(c)
    ensures HexChar(DigitValue(c)) == c
  {
  }

  /** `artColor` with no shift leaves a lower-case colour whose lightness is in [6, 95] unchanged. */
  lemma ArtColorZeroShift(hex: string)
    requires IsLowerHexColor(hex)
    requires 6.0 <= HexToHsl(hex).l <= 95.0
    ensures ArtColor(hex, 0.0, 0.0, 0.0) == hex
  {
    HexRoundTrip(hex);
    var c := HexToHsl(hex);
    assert ShiftHsl(c, 0.0, 0.0, 0.0) == c;
  }

  /** The chroma half-width `hslToHex` recomputes from `hexToHSL`'s output is half the channel range. */
  lemma ChromaOfHsl(mx: real, mn: real, s100: real, l: real)
    requires 0.0 <= mn < mx <= 1.0 && l == (mx + mn) / 2.0
    requires s100 == 100.0 * (if l > 0.5 then SatHigh(mx, mn) else SatLow(mx, mn))
    ensures Chroma(s100, l) == (mx - mn) / 2.0
  {
    var d := mx - mn;
    if l > 0.5 {
      var y := 2.0 - mx - mn;
      var s := d / y;
      assert s * y == d;
      assert Min(l, 1.0 - l) == y / 2.0;
      assert Chroma(s100, l) == s * (y / 2.0);
    } else {
      var y := mx + mn;
      var s := d / y;
      assert s * y == d;
      assert Min(l, 1.0 - l) == y / 2.0;
      assert Chroma(s100, l) == s * (y / 2.0);
    }
  }

  /** The facts every hue sector needs: the three remainders and the affine forms of `l - a * t`. */
  lemma SectorFacts(h: real, l: real, a: real, mx: real, mn: real, q: real, x: real)
    requires mn < mx && l == (mx + mn) / 2.0 && a == (mx - mn) / 2.0 && q == x / (mx - mn)
    requires 0.0 <= h < 360.0
    ensures q * (mx - mn) == x
    ensures l + a == mx && l - a == mn
    ensures l - a * (1.0 - 2.0 * q) == mn + x
    ensures l - a * (2.0 * q + 1.0) == mn - x
    ensures RemTwelveOf(h / 30.0) && RemTwelveOf(4.0 + h / 30.0) && RemTwelveOf(8.0 + h / 30.0)
  {
    var d := mx - mn;
    assert q * d == x;
    assert a * (1.0 - 2.0 * q) == a - q * d;
    assert a * (2.0 * q + 1.0) == q * d + a;
    RemTwelve(h / 30.0);
    RemTwelve(4.0 + h / 30.0);
    RemTwelve(8.0 + h / 30.0);
  }

  predicate RemTwelveOf(x: real) {
    Rem(x, 12.0) == if x < 12.0 then x else x - 12.0
  }

  lemma RemTwelve(x: real)
    requires 0.0 <= x < 24.0
    ensures RemTwelveOf(x)
  {
    if x < 12.0 {
      assert Trunc(x / 12.0) == 0;
    } else {
      assert Trunc(x / 12.0) == 1;
    }
  }

  /**
   * One hue sector of the round trip: given which tent value each of the
   * channels 0, 8 and 4 lands on, every channel comes back.
   */
  lemma RoundTripCase(r: real, g: real, b: real, mx: real, mn: real,
                      h: real, l: real, a: real, t0: real, t8: real, t4: real)
    requires mn < mx && l == (mx + mn) / 2.0 && a == (mx - mn) / 2.0
    requires Tent(Rem(0.0 + h / 30.0, 12.0)) == t0
    requires Tent(Rem(8.0 + h / 30.0, 12.0)) == t8
    requires Tent(Rem(4.0 + h / 30.0, 12.0)) == t4
    requires l - a * t0 == r && l - a * t8 == g && l - a * t4 == b
    ensures ChannelValue(0.0, h, l, a) == r && ChannelValue(8.0, h, l, a) == g && ChannelValue(4.0, h, l, a) == b
  {
  }

  // ---------------------------------------------------------------------------
  // artColor

  /** The HSL arithmetic of `artColor`: clamp lightness and saturation, wrap the hue. */
  function ShiftHsl(c: Hsl, lShift: real, sShift: real, hShift: real): (r: Hsl)
    ensures 6.0 <= r.l <= 95.0 && 0.0 <= r.s <= 100.0 && 0.0 <= r.h < 360.0
    ensures 6.0 <= c.l + lShift <= 95.0 ==> r.l == c.l + lShift
    ensures c.l + lShift < 6.0 ==> r.l == 6.0
    ensures c.l + lShift > 95.0 ==> r.l == 95.0
    ensures 0.0 <= c.s + sShift <= 100.0 ==> r.s == c.s + sShift
    ensures c.s + sShift < 0.0 ==> r.s == 0.0
    ensures c.s + sShift > 100.0 ==> r.s == 100.0
    ensures 0.0 <= c.h + hShift < 360.0 ==> r.h == c.h + hShift
    ensures ((r.h - (c.h + hShift)) / 360.0).Floor as real == (r.h - (c.h + hShift)) / 360.0
  {
    var newL := Max(6.0, Min(95.0, c.l + lShift));
    var newS := Max(0.0, Min(100.0, c.s + sShift));
    var wrapped := Rem(c.h + hShift, 360.0);
    var newH := if wrapped < 0.0 then wrapped + 360.0 else wrapped;
    HueWrap(c.h + hShift);
    Hsl(newH, newS, newL)
  }

  lemma HueWrap(x: real)
    ensures -360.0 < Rem(x, 360.0) < 360.0
    ensures x >= 0.0 ==> Rem(x, 360.0) >= 0.0
    ensures x < 0.0 ==> Rem(x, 360.0) <= 0.0
    ensures 0.0 <= x < 360.0 ==> Rem(x, 360.0) == x
    ensures var w := Rem(x, 360.0);
            var r := if w < 0.0 then w + 360.0 else w;
            ((r - x) / 360.0).Floor as real == (r - x) / 360.0
  {
    var q := Trunc(x / 360.0);
    var w := Rem(x, 360.0);
    assert w == x - 360.0 * q as real;
    if w < 0.0 {
      assert (w + 360.0 - x) / 360.0 == (1 - q) as real;
    } else {
      assert (w - x) / 360.0 == (-q) as real;
    }
  }

  /** `artColor(hex, lShift, sShift, hShift)`. */
  function ArtColor(hex: string, lShift: real, sShift: real, hShift: real): (r: string)
    requires IsHexColor(hex)
    ensures IsLowerHexColor(r) && IsHexColor(r)
  {
    var c := ShiftHsl(HexToHsl(hex), lShift, sShift, hShift);
    HslToHexWellFormed(c.h, c.s, c.l);
    HslToHex(c.h, c.s, c.l)
  }
}
