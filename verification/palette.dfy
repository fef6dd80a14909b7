/**
 * `generatePalette` of planet-logic.ts: seven shades of the planet's solid
 * colour, with lightness shifts rising from -45 to +50 and the colour itself
 * in the middle.
 */
module Palette {
  import opened Color
  import opened Planet

  /** The lightness, saturation and hue shifts of the seven entries; entry 3 has none. */
  const LightShifts: seq<real> := [-45.0, -30.0, -15.0, 0.0, 15.0, 30.0, 50.0]
  const SatShifts: seq<real> := [10.0, 5.0, 0.0, 0.0, 0.0, -10.0, -20.0]
  const HueShifts: seq<real> := [-15.0, -10.0, -5.0, 0.0, 5.0, 10.0, 15.0]

  /** The palette entry `i` would be if it, too, went through `artColor`. */
  function Shade(s: string, i: nat): (r: string)
    requires IsHexColor(s) && i < 7
    ensures IsLowerHexColor(r)
  {
    ArtColor(s, LightShifts[i], SatShifts[i], HueShifts[i])
  }

  /**
   * Seven well-formed colours; entry 3 is the solid colour as given, every
   * other entry is that colour under its shifts.
   */
  function GeneratePalette(data: PlanetData): (pal: seq<string>)
    requires IsHexColor(data.solid.color)
    ensures |pal| == 7 && pal[3] == data.solid.color
    ensures forall i :: 0 <= i < 7 ==> IsHexColor(pal[i])
    ensures forall i :: 0 <= i < 7 && i != 3 ==> pal[i] == Shade(data.solid.color, i)
  {
    var s := data.solid.color;
    seq(7, i requires 0 <= i < 7 => if i == 3 then s else Shade(s, i))
  }

  /**
   * For a lower-case colour whose lightness already lies in [6, 95], leaving
   * entry 3 unshifted is the same as shifting it by nothing: the palette is
   * then the seven shades alone.
   */
  lemma PaletteIsShades(data: PlanetData)
    requires IsLowerHexColor(data.solid.color) && 6.0 <= HexToHsl(data.solid.color).l <= 95.0
    ensures GeneratePalette(data) == seq(7, i requires 0 <= i < 7 => Shade(data.solid.color, i))
  {
    var s := data.solid.color;
    ArtColorZeroShift(s);
    assert Shade(s, 3) == s;
  }
}
