/** The hue/saturation/intensity to RGB conversion of the plate views
    (`hsi_to_rgb` and `cos` in view.py).

    The cosine is a parameter: the model does not fix its numeric values (the
    source computes math.cos with 3.14 for pi). All that the conversion needs
    of it is that it is positive strictly between -60 and 60 degrees, which is
    where every denominator of the sector formulas lies. */
module Hsi {
  import opened Options

  /** A cosine in degrees. */
  type CosFn = real -> real

  /** cos(a) > 0 for -60 < a < 60 (degrees). */
  ghost predicate PositiveNearZero(cos: CosFn) {
    forall a: real :: -60.0 < a < 60.0 ==> cos(a) > 0.0
  }

  /** Channel values before truncation. */
  datatype Channels = Channels(r: real, g: real, b: real)

  /** A colour with integer channels, as handed to QColor. */
  datatype Rgb = Rgb(r: int, g: int, b: int)

  predicate WholeTurns(d: real) {
    (d / 360.0).Floor as real == d / 360.0
  }

  /** Python's `hue % 360` on a float: the modulus takes the sign of the
      divisor, so the result is always in [0, 360). */
  function ReduceHue(hue: real): (h: real)
    ensures 0.0 <= h < 360.0
    ensures WholeTurns(hue - h)
  {
    hue - 360.0 * ((hue / 360.0).Floor as real)
  }

  /** Python's `int(x)` on a float: truncation toward zero, not rounding. */
  function Trunc(x: real): (n: int)
    ensures x >= 0.0 ==> 0 <= n && n as real <= x < n as real + 1.0
    ensures x < 0.0 ==> n <= 0 && n as real - 1.0 < x <= n as real
  {
    if x >= 0.0 then x.Floor else -((-x).Floor)
  }

  /** The sector formulas of the three open sectors. Each is also defined at
      the ends of its sector, as long as its denominator is not zero. One
      channel is I - IS, and the two cosine-ratio channels make up the rest
      of 3*I between them. */
  function RedGreenSector(h: real, i: real, si: real, cos: CosFn): (c: Channels)
    requires cos(60.0 - h) != 0.0
    ensures c.b == i - si
    ensures c.r + c.g + c.b == 3.0 * i
  {
    RatioPairSum(si, cos(h), cos(60.0 - h));
    Channels(i + si * cos(h) / cos(60.0 - h),
             i + si * (1.0 - cos(h) / cos(60.0 - h)),
             i - si)
  }

  function GreenBlueSector(h: real, i: real, si: real, cos: CosFn): (c: Channels)
    requires cos(180.0 - h) != 0.0
    ensures c.r == i - si
    ensures c.r + c.g + c.b == 3.0 * i
  {
    RatioPairSum(si, cos(h - 120.0), cos(180.0 - h));
    Channels(i - si,
             i + ((si * cos(h - 120.0)) / cos(180.0 - h)),
             i + si * (1.0 - cos(h - 120.0) / cos(180.0 - h)))
  }

  function BlueRedSector(h: real, i: real, si: real, cos: CosFn): (c: Channels)
    requires cos(300.0 - h) != 0.0
    ensures c.g == i - si
    ensures c.r + c.g + c.b == 3.0 * i
  {
    RatioPairSum(si, cos(h - 240.0), cos(300.0 - h));
    Channels(i + si * (1.0 - cos(h - 240.0) / cos(300.0 - h)),
             i - si,
             i + si * cos(h - 240.0) / cos(300.0 - h))
  }

  /** The channels at the three exact sector boundaries: the boundary's own
      channel exceeds the other two, which are equal, by 3*IS, and the three
      add up to 3*I. */
  function AtRed(i: real, si: real): (c: Channels)
    ensures c.g == c.b && c.r == c.g + 3.0 * si
    ensures c.r + c.g + c.b == 3.0 * i
  {
    Channels(i + 2.0 * si, i - si, i - si)
  }

  function AtGreen(i: real, si: real): (c: Channels)
    ensures c.r == c.b && c.g == c.r + 3.0 * si
    ensures c.r + c.g + c.b == 3.0 * i
  {
    Channels(i - si, i + 2.0 * si, i - si)
  }

  function AtBlue(i: real, si: real): (c: Channels)
    ensures c.r == c.g && c.b == c.r + 3.0 * si
    ensures c.r + c.g + c.b == 3.0 * i
  {
    Channels(i - si, i - si, i + 2.0 * si)
  }

  /** The dispatch of hsi_to_rgb on the reduced hue `h`; `None` stands for
      `raise Exception("Unexpected")`. Whatever the branch, the three channels
      add up to three times the intensity. */
  function SectorChannels(h: real, i: real, si: real, cos: CosFn): (c: Option<Channels>)
    requires 0.0 <= h
    requires PositiveNearZero(cos)
    ensures c.Some? <==> h < 360.0
    ensures c.Some? ==> c.value.r + c.value.g + c.value.b == 3.0 * i
  {
    if h == 0.0 then Some(AtRed(i, si))
    else if h < 120.0 then
      assert cos(60.0 - h) > 0.0;
      Some(RedGreenSector(h, i, si, cos))
    else if h == 120.0 then Some(AtGreen(i, si))
    else if h < 240.0 then
      assert cos(180.0 - h) > 0.0;
      Some(GreenBlueSector(h, i, si, cos))
    else if h == 240.0 then Some(AtBlue(i, si))
    else if h < 360.0 then
      assert cos(300.0 - h) > 0.0;
      Some(BlueRedSector(h, i, si, cos))
    else None
  }

  /** The two cosine-ratio channels of a sector together exceed 2*I by IS. */
  lemma RatioPairSum(si: real, c: real, d: real)
    requires d != 0.0
    ensures si * c / d + si * (1.0 - c / d) == si
    ensures (si * c) / d + si * (1.0 - c / d) == si
  {
    assert si * c / d == si * (c / d);
  }

  /** hsi_to_rgb(hue, saturation, intensity). The `raise` branch is never
      taken; the truncated channels sum to within 3 of 3*I; with no
      saturation every channel is the truncated intensity. */
  function HsiToRgb(hue: real, saturation: real, intensity: real, cos: CosFn): (r: Option<Rgb>)
    requires PositiveNearZero(cos)
    ensures r.Some?
    ensures 3.0 * intensity - 3.0 < (r.value.r + r.value.g + r.value.b) as real < 3.0 * intensity + 3.0
    ensures saturation == 0.0 ==> r.value == Rgb(Trunc(intensity), Trunc(intensity), Trunc(intensity))
  {
    match SectorChannels(ReduceHue(hue), intensity, saturation * intensity, cos)
    case Some(c) =>
      TruncSum(c.r, c.g, c.b);
      GreyWithoutSaturation(ReduceHue(hue), saturation, intensity, cos);
      Some(Rgb(Trunc(c.r), Trunc(c.g), Trunc(c.b)))
    case None => None
  }

  /** With IS = 0 every branch gives R = G = B = I before truncation. */
  lemma GreyWithoutSaturation(h: real, saturation: real, i: real, cos: CosFn)
    requires 0.0 <= h < 360.0 && PositiveNearZero(cos)
    ensures saturation == 0.0 ==> SectorChannels(h, i, saturation * i, cos) == Some(Channels(i, i, i))
  {
    assert saturation == 0.0 ==> saturation * i == 0.0;
    assert cos(60.0 - h) != 0.0 ==> 0.0 * cos(h) / cos(60.0 - h) == 0.0;
    assert cos(180.0 - h) != 0.0 ==> 0.0 * cos(h - 120.0) / cos(180.0 - h) == 0.0;
    assert cos(300.0 - h) != 0.0 ==> 0.0 * cos(h - 240.0) / cos(300.0 - h) == 0.0;
  }

  /** Truncating three reals moves their sum by less than 3. */
  lemma TruncSum(a: real, b: real, c: real)
    ensures a + b + c - 3.0 < (Trunc(a) + Trunc(b) + Trunc(c)) as real < a + b + c + 3.0
  {
  }

  /** Reducing an already reduced hue changes nothing. */
  lemma ReduceHueIdempotent(hue: real)
    ensures ReduceHue(ReduceHue(hue)) == ReduceHue(hue)
  {
    var h := ReduceHue(hue);
    assert 0.0 <= h / 360.0 < 1.0;
    assert (h / 360.0).Floor == 0;
  }

  /** A fixed hue in [0, 360) is left as it is. */
  lemma ReduceHueInRange(hue: real)
    requires 0.0 <= hue < 360.0
    ensures ReduceHue(hue) == hue
  {
    assert (hue / 360.0).Floor == 0;
  }

  /** Adding whole turns leaves the reduced hue unchanged. */
  lemma {:induction false} ReduceHuePeriodic(hue: real, k: int)
    ensures ReduceHue(hue + 360.0 * k as real) == ReduceHue(hue)
  {
    var f := (hue / 360.0).Floor;
    var g := ((hue + 360.0 * k as real) / 360.0).Floor;
    assert (hue + 360.0 * k as real) / 360.0 == hue / 360.0 + k as real;
    FloorShift(hue / 360.0, k);
  }

  lemma FloorShift(x: real, k: int)
    ensures (x + k as real).Floor == x.Floor + k
  {
    var m := x.Floor + k;
    assert m as real <= x + k as real < m as real + 1.0;
  }

  /** At whole turns of 360 the colour is the pure-red boundary. */
  lemma AtWholeTurns(k: int, saturation: real, intensity: real, cos: CosFn)
    requires PositiveNearZero(cos)
    ensures var si := saturation * intensity;
      HsiToRgb(360.0 * k as real, saturation, intensity, cos)
        == Some(Rgb(Trunc(intensity + 2.0 * si), Trunc(intensity - si), Trunc(intensity - si)))
  {
    ReduceHuePeriodic(0.0, k);
    ReduceHueInRange(0.0);
    assert 0.0 + 360.0 * k as real == 360.0 * k as real;
  }

  /** At 120 degrees plus whole turns the colour is the pure-green boundary. */
  lemma AtGreenBoundary(k: int, saturation: real, intensity: real, cos: CosFn)
    requires PositiveNearZero(cos)
    ensures var si := saturation * intensity;
      HsiToRgb(120.0 + 360.0 * k as real, saturation, intensity, cos)
        == Some(Rgb(Trunc(intensity - si), Trunc(intensity + 2.0 * si), Trunc(intensity - si)))
  {
    ReduceHuePeriodic(120.0, k);
    ReduceHueInRange(120.0);
  }

  /** At 240 degrees plus whole turns the colour is the pure-blue boundary. */
  lemma AtBlueBoundary(k: int, saturation: real, intensity: real, cos: CosFn)
    requires PositiveNearZero(cos)
    ensures var si := saturation * intensity;
      HsiToRgb(240.0 + 360.0 * k as real, saturation, intensity, cos)
        == Some(Rgb(Trunc(intensity - si), Trunc(intensity - si), Trunc(intensity + 2.0 * si)))
  {
    ReduceHuePeriodic(240.0, k);
    ReduceHueInRange(240.0);
  }

  /** In each open sector the channel outside the cosine ratio is I - IS:
      blue in (0, 120), red in (120, 240), green in (240, 360). */
  lemma OpenSectorFixedChannel(h: real, i: real, si: real, cos: CosFn)
    requires 0.0 <= h && PositiveNearZero(cos)
    ensures 0.0 < h < 120.0 ==> SectorChannels(h, i, si, cos).value.b == i - si
    ensures 120.0 < h < 240.0 ==> SectorChannels(h, i, si, cos).value.r == i - si
    ensures 240.0 < h < 360.0 ==> SectorChannels(h, i, si, cos).value.g == i - si
  {
  }

  /** Evaluated at each boundary, the open-sector formulas give that
      boundary's value, for a cosine with cos 0 = 2 cos 60 = -2 cos 120 and
      cos(-60) = cos 60. */
  lemma BoundariesAreSectorLimits(i: real, si: real, cos: CosFn)
    requires cos(60.0) != 0.0 && cos(-60.0) == cos(60.0)
    requires cos(0.0) == 2.0 * cos(60.0) && cos(120.0) == -cos(60.0)
    ensures RedGreenSector(0.0, i, si, cos) == AtRed(i, si)
    ensures RedGreenSector(120.0, i, si, cos) == AtGreen(i, si)
    ensures GreenBlueSector(120.0, i, si, cos) == AtGreen(i, si)
    ensures GreenBlueSector(240.0, i, si, cos) == AtBlue(i, si)
    ensures BlueRedSector(240.0, i, si, cos) == AtBlue(i, si)
    ensures BlueRedSector(360.0, i, si, cos) == AtRed(i, si)
  {
    var c := cos(60.0);
    assert cos(0.0) / cos(60.0) == 2.0;
    assert cos(120.0) / cos(-60.0) == -1.0;
    assert si * cos(0.0) / cos(60.0) == 2.0 * si;
    assert si * cos(120.0) / cos(-60.0) == -si;
  }
}
