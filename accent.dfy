/** An accent colour and the brushes derived from it: the main brush, four darker and
    four lighter brushes stepped in luminosity, and nine brushes of decreasing alpha.
    The HSL colour type and its conversions to and from RGB are not part of this
    model; they are parameters of the constructor. */
module Accents {

  type Byte = x: int | 0 <= x <= 0xFF

  /** System.Windows.Media.Color: alpha, red, green, blue. */
  datatype Color = Color(a: Byte, r: Byte, g: Byte, b: Byte)

  /** A colour in hue, saturation and luminosity. */
  datatype Hsl = Hsl(hue: real, saturation: real, luminosity: real)

  /** A frozen SolidColorBrush. */
  datatype Brush = SolidColorBrush(color: Color)

  /** GetBrush: the colour's red, green and blue with the given alpha. */
  function GetBrush(alpha: Byte, color: Color): (b: Brush)
    ensures b.color.a == alpha
    ensures b.color.r == color.r && b.color.g == color.g && b.color.b == color.b
  {
    SolidColorBrush(Color(alpha, color.r, color.g, color.b))
  }

  /** Only alpha changes: the colour's own alpha gives the colour back, and a brush
      made from a brush's colour keeps only the last alpha. */
  lemma GetBrushAlphaOnly(alpha: Byte, alpha': Byte, color: Color)
    ensures GetBrush(color.a, color).color == color
    ensures GetBrush(alpha', GetBrush(alpha, color).color) == GetBrush(alpha', color)
  {
  }

  /** The luminosity step: a fifth of the distance from 0.1 to the base luminosity. */
  function LumiStep(luminosity: real): real
  {
    (luminosity - 0.1) / 5.0
  }

  /** The luminosity of DarkBrush k and of LightBrush k, for k = 1..4. */
  function DarkLuminosity(luminosity: real, k: nat): real
  {
    luminosity - (k as real) * LumiStep(luminosity)
  }

  function LightLuminosity(luminosity: real, k: nat): real
  {
    luminosity + (k as real) * LumiStep(luminosity)
  }

  /** Above 0.1 the dark brushes get strictly darker and the light ones strictly
      lighter, step by step; at exactly 0.1 every variant has the base luminosity;
      below 0.1 the two ladders swap direction. */
  lemma LuminosityLadders(luminosity: real, k: nat)
    requires 1 <= k < 4
    ensures luminosity > 0.1 ==>
      && DarkLuminosity(luminosity, k + 1) < DarkLuminosity(luminosity, k) < luminosity
      && luminosity < LightLuminosity(luminosity, k) < LightLuminosity(luminosity, k + 1)
    ensures luminosity == 0.1 ==>
      DarkLuminosity(luminosity, k) == LightLuminosity(luminosity, k) == luminosity
    ensures luminosity < 0.1 ==>
      && DarkLuminosity(luminosity, k + 1) > DarkLuminosity(luminosity, k) > luminosity
      && LightLuminosity(luminosity, k + 1) < LightLuminosity(luminosity, k) < luminosity
  {
    var step := LumiStep(luminosity);
    assert DarkLuminosity(luminosity, k + 1) == DarkLuminosity(luminosity, k) - step;
    assert LightLuminosity(luminosity, k + 1) == LightLuminosity(luminosity, k) + step;
    if luminosity > 0.1 {
      assert step > 0.0;
      assert (k as real) * step >= step;
    } else if luminosity < 0.1 {
      assert step < 0.0;
      assert (k as real) * step <= step;
    }
  }

  /** The dark and light ladders mirror each other about the base luminosity. */
  lemma LaddersMirror(luminosity: real, k: nat)
    ensures DarkLuminosity(luminosity, k) + LightLuminosity(luminosity, k) == 2.0 * luminosity
  {
  }

  /** For a base luminosity in [0.1, 1], the darkest variant stays in [0.1, 1], and the
      lightest one goes above 1 exactly when the base is above 0.6 (the HSL type's
      handling of such values is not part of this model). */
  lemma LuminosityRange(luminosity: real)
    requires 0.1 <= luminosity <= 1.0
    ensures 0.1 <= DarkLuminosity(luminosity, 4) <= luminosity
    ensures LightLuminosity(luminosity, 4) > 1.0 <==> luminosity > 0.6
  {
    assert DarkLuminosity(luminosity, 4) == (luminosity + 0.4) / 5.0;
    assert LightLuminosity(luminosity, 4) == (9.0 * luminosity - 0.4) / 5.0;
  }

  /** The alphas of AlphaBrush1 to AlphaBrush9. */
  const AlphaLadder: seq<Byte> := [0xE5, 0xCC, 0xB2, 0x99, 0x7F, 0x66, 0x4C, 0x33, 0x19]

  /** AlphaBrush k is k times 10% transparent: its alpha is 255 * (10 - k) / 10 rounded
      down, and the ladder strictly decreases. */
  lemma AlphaLadderMeaning()
    ensures |AlphaLadder| == 9
    ensures forall i :: 0 <= i < 9 ==> AlphaLadder[i] == (255 * (10 - (i + 1))) / 10
    ensures forall i, j :: 0 <= i < j < 9 ==> AlphaLadder[i] > AlphaLadder[j]
  {
  }

  class Accent {
    const name: string
    const color: Color
    const mainBrush: Brush
    /** DarkBrush1 to DarkBrush4. */
    const darkBrushes: seq<Brush>
    /** LightBrush1 to LightBrush4. */
    const lightBrushes: seq<Brush>
    /** AlphaBrush1 to AlphaBrush9. */
    const alphaBrushes: seq<Brush>

    /** The constructor: the name and colour are kept; every derived brush is opaque
        except the alpha ladder, whose brushes keep the colour's RGB. The luminosity
        is stepped down four times, reset, and stepped up four times. */
    constructor (name: string, color: Color, toHsl: Color -> Hsl, toColor: Hsl -> Color)
      ensures this.name == name && this.color == color
      ensures mainBrush == GetBrush(0xFF, color)
      ensures var hsl := toHsl(color);
        && |darkBrushes| == 4 && |lightBrushes| == 4
        && (forall i :: 0 <= i < 4 ==>
              darkBrushes[i] == GetBrush(0xFF, toColor(hsl.(luminosity := DarkLuminosity(hsl.luminosity, i + 1)))))
        && (forall i :: 0 <= i < 4 ==>
              lightBrushes[i] == GetBrush(0xFF, toColor(hsl.(luminosity := LightLuminosity(hsl.luminosity, i + 1)))))
      ensures |alphaBrushes| == 9
      ensures forall i :: 0 <= i < 9 ==> alphaBrushes[i] == GetBrush(AlphaLadder[i], color)
    {
      this.name := name;
      this.color := color;

      var hsl := toHsl(color);
      ghost var base := hsl;
      var lumiStep := (hsl.luminosity - 0.1) / 5.0;

      mainBrush := GetBrush(0xFF, color);
      var origLumi := hsl.luminosity;

      hsl := hsl.(luminosity := hsl.luminosity - lumiStep);
      assert hsl == base.(luminosity := DarkLuminosity(base.luminosity, 1));
      var dark1 := GetBrush(0xFF, toColor(hsl));
      hsl := hsl.(luminosity := hsl.luminosity - lumiStep);
      assert hsl == base.(luminosity := DarkLuminosity(base.luminosity, 2));
      var dark2 := GetBrush(0xFF, toColor(hsl));
      hsl := hsl.(luminosity := hsl.luminosity - lumiStep);
      assert hsl == base.(luminosity := DarkLuminosity(base.luminosity, 3));
      var dark3 := GetBrush(0xFF, toColor(hsl));
      hsl := hsl.(luminosity := hsl.luminosity - lumiStep);
      assert hsl == base.(luminosity := DarkLuminosity(base.luminosity, 4));
      var dark4 := GetBrush(0xFF, toColor(hsl));

      hsl := hsl.(luminosity := origLumi);

      hsl := hsl.(luminosity := hsl.luminosity + lumiStep);
      assert hsl == base.(luminosity := LightLuminosity(base.luminosity, 1));
      var light1 := GetBrush(0xFF, toColor(hsl));
      hsl := hsl.(luminosity := hsl.luminosity + lumiStep);
      assert hsl == base.(luminosity := LightLuminosity(base.luminosity, 2));
      var light2 := GetBrush(0xFF, toColor(hsl));
      hsl := hsl.(luminosity := hsl.luminosity + lumiStep);
      assert hsl == base.(luminosity := LightLuminosity(base.luminosity, 3));
      var light3 := GetBrush(0xFF, toColor(hsl));
      hsl := hsl.(luminosity := hsl.luminosity + lumiStep);
      assert hsl == base.(luminosity := LightLuminosity(base.luminosity, 4));
      var light4 := GetBrush(0xFF, toColor(hsl));

      darkBrushes := [dark1, dark2, dark3, dark4];
      lightBrushes := [light1, light2, light3, light4];
      alphaBrushes := [
        GetBrush(0xE5, color), GetBrush(0xCC, color), GetBrush(0xB2, color),
        GetBrush(0x99, color), GetBrush(0x7F, color), GetBrush(0x66, color),
        GetBrush(0x4C, color), GetBrush(0x33, color), GetBrush(0x19, color)];
    }
  }
}
