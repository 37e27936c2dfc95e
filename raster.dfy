/** The raster renderers of view.py: `draw_bw_elevation_on_screen`,
    `draw_plates_on_screen`, `draw_plates_and_elevation_on_screen` and
    `draw_land_on_screen`. Each visits the cells of a width x height world in
    row-major order and sets one pixel of the canvas per cell, with a colour
    that depends on that cell alone. */
module Raster {
  import opened Options
  import opened Hsi

  /** What the renderers read of a World: its size, the elevation, plate and
      ocean grids (row-major, indexed [y][x]), and the values of the World
      accessors min_elevation, max_elevation and n_actual_plates. */
  datatype Grid = Grid(
    width: nat,
    height: nat,
    elevation: seq<seq<real>>,
    plates: seq<seq<int>>,
    ocean: seq<seq<bool>>,
    minElevation: real,
    maxElevation: real,
    actualPlates: int)

  /** The grids match the declared size and every elevation lies between the
      accessors' minimum and maximum. */
  predicate WellFormed(g: Grid) {
    && |g.elevation| == g.height
    && |g.plates| == g.height
    && |g.ocean| == g.height
    && (forall y :: 0 <= y < g.height ==>
          |g.elevation[y]| == g.width && |g.plates[y]| == g.width && |g.ocean[y]| == g.width)
    && (forall y, x :: 0 <= y < g.height && 0 <= x < g.width && x < |g.elevation[y]| ==>
          g.minElevation <= g.elevation[y][x] <= g.maxElevation)
  }

  predicate InGrid(g: Grid, x: int, y: int) {
    0 <= x < g.width && 0 <= y < g.height
  }

  /** World.is_land((x, y)): land and ocean partition the cells. */
  function IsLand(g: Grid, x: int, y: int): (land: bool)
    requires WellFormed(g) && InGrid(g, x, y)
    ensures land != g.ocean[y][x]
  {
    !g.ocean[y][x]
  }

  // ---------------------------------------------------------------------
  // Per-cell colour rules

  /** (e - min) / (max - min); the source does not guard max == min. */
  function Normalized(e: real, lo: real, hi: real): (n: real)
    requires lo < hi
    ensures lo + n * (hi - lo) == e
  {
    (e - lo) / (hi - lo)
  }

  /** The grey of the black-and-white elevation view: each channel is
      int(n * 255) for the normalized elevation n. */
  function BwColor(e: real, lo: real, hi: real): (c: Rgb)
    requires lo < hi
    ensures c.r == c.g == c.b
  {
    var n := Trunc(Normalized(e, lo, hi) * 255.0);
    Rgb(n, n, n)
  }

  /** The lowest cell is black, the highest white, everything between a grey
      in [0, 255], and higher cells are never darker. */
  lemma BwColorRange(e: real, lo: real, hi: real)
    requires lo < hi && lo <= e <= hi
    ensures 0 <= BwColor(e, lo, hi).r <= 255
    ensures e == lo ==> BwColor(e, lo, hi) == Rgb(0, 0, 0)
    ensures e == hi ==> BwColor(e, lo, hi) == Rgb(255, 255, 255)
  {
    var n := Normalized(e, lo, hi);
    NormalizedInUnit(e, lo, hi);
    NormalizedAtEnds(lo, hi);
  }

  lemma NormalizedInUnit(e: real, lo: real, hi: real)
    requires lo < hi && lo <= e <= hi
    ensures 0.0 <= Normalized(e, lo, hi) <= 1.0
  {
    var a, d := e - lo, hi - lo;
    var n := a / d;
    assert n * d == a;
    if n < 0.0 {
      assert n * d < 0.0 * d;
    }
    if n > 1.0 {
      assert n * d > 1.0 * d;
    }
  }

  lemma NormalizedAtEnds(lo: real, hi: real)
    requires lo < hi
    ensures Normalized(lo, lo, hi) == 0.0
    ensures Normalized(hi, lo, hi) == 1.0
  {
    var d := hi - lo;
    assert d / d == 1.0;
  }

  /** Dividing by a positive number keeps the order. */
  lemma QuotientMonotone(a: real, b: real, d: real)
    requires 0.0 < d && a <= b
    ensures a / d <= b / d
  {
    var q := b / d - a / d;
    assert q * d == b - a;
  }

  lemma BwColorMonotone(e1: real, e2: real, lo: real, hi: real)
    requires lo < hi && e1 <= e2
    ensures BwColor(e1, lo, hi).r <= BwColor(e2, lo, hi).r
  {
    QuotientMonotone(e1 - lo, e2 - lo, hi - lo);
  }

  /** plate * (360 / n_plates); the source does not guard n_plates == 0. */
  function PlateHue(plate: int, nPlates: int): (h: real)
    requires nPlates > 0
    ensures h * nPlates as real == 360.0 * plate as real
    ensures 0 <= plate < nPlates ==> 0.0 <= h < 360.0
  {
    plate as real * (360.0 / nPlates as real)
  }

  /** Plate ids that differ by the plate count get the same reduced hue. */
  lemma PlateHuePeriodic(plate: int, nPlates: int)
    requires nPlates > 0
    ensures ReduceHue(PlateHue(plate + nPlates, nPlates)) == ReduceHue(PlateHue(plate, nPlates))
  {
    var step := 360.0 / nPlates as real;
    assert PlateHue(plate + nPlates, nPlates) == PlateHue(plate, nPlates) + 360.0 * 1 as real by {
      assert (plate + nPlates) as real * step == plate as real * step + nPlates as real * step;
      assert nPlates as real * step == 360.0;
    }
    ReduceHuePeriodic(PlateHue(plate, nPlates), 1);
  }

  /** The colour of the plates view: hue from the plate id, saturation 0.5,
      intensity 64. */
  function PlatesColor(plate: int, nPlates: int, cos: CosFn): (c: Rgb)
    requires nPlates > 0 && PositiveNearZero(cos)
    ensures 189 < c.r + c.g + c.b < 195
  {
    HsiToRgb(PlateHue(plate, nPlates), 0.5, 64.0, cos).value
  }

  /** Plate 0 always has hue 0: it is drawn (128, 32, 32). */
  lemma PlateZeroColor(nPlates: int, cos: CosFn)
    requires nPlates > 0 && PositiveNearZero(cos)
    ensures PlatesColor(0, nPlates, cos) == Rgb(128, 32, 32)
  {
    AtWholeTurns(0, 0.5, 64.0, cos);
    assert PlateHue(0, nPlates) == 360.0 * 0 as real;
  }

  /** Plate ids that differ by the plate count are drawn alike. */
  lemma PlatesColorPeriodic(plate: int, nPlates: int, cos: CosFn)
    requires nPlates > 0 && PositiveNearZero(cos)
    ensures PlatesColor(plate + nPlates, nPlates, cos) == PlatesColor(plate, nPlates, cos)
  {
    PlateHuePeriodic(plate, nPlates);
  }

  /** The intensity of the plates-and-elevation view, 40 + 60 * n: within
      [40, 100] for every elevation between the minimum and the maximum. */
  function ElevationIntensity(e: real, lo: real, hi: real): (i: real)
    requires lo < hi
    ensures lo <= e <= hi ==> 40.0 <= i <= 100.0
    ensures e == lo ==> i == 40.0
    ensures e == hi ==> i == 100.0
  {
    NormalizedAtEnds(lo, hi);
    if lo <= e <= hi then NormalizedInUnit(e, lo, hi); 40.0 + 60.0 * Normalized(e, lo, hi)
    else 40.0 + 60.0 * Normalized(e, lo, hi)
  }

  /** The colour of the plates-and-elevation view: hue from the plate id,
      saturation 0.6, intensity from the elevation. */
  function PlatesAndElevationColor(plate: int, nPlates: int, e: real, lo: real, hi: real, cos: CosFn): (c: Rgb)
    requires nPlates > 0 && lo < hi && PositiveNearZero(cos)
    ensures lo <= e <= hi ==> 117 < c.r + c.g + c.b < 303
  {
    HsiToRgb(PlateHue(plate, nPlates), 0.6, ElevationIntensity(e, lo, hi), cos).value
  }

  const LandGreen := Rgb(0, 200, 0)
  const OceanBlue := Rgb(0, 0, 200)

  /** The two colours of the land view. */
  function LandColor(land: bool): (c: Rgb)
    ensures c == LandGreen || c == OceanBlue
    ensures c == LandGreen <==> land
  {
    if land then LandGreen else OceanBlue
  }

  // ---------------------------------------------------------------------
  // The views and the cell each one draws

  datatype Mode = BwElevation | Plates | PlatesAndElevation | Land

  /** What the view needs of the world so that no division by zero occurs:
      a non-empty elevation range and a positive plate count. */
  ghost predicate Renderable(g: Grid, mode: Mode, cos: CosFn) {
    match mode
    case BwElevation => g.minElevation < g.maxElevation
    case Plates => g.actualPlates > 0 && PositiveNearZero(cos)
    case PlatesAndElevation =>
      g.actualPlates > 0 && g.minElevation < g.maxElevation && PositiveNearZero(cos)
    case Land => true
  }

  /** The colour a view gives cell (x, y): a grey in [0, 255], a plate colour
      of intensity 64, a plate colour of intensity in [40, 100], or one of
      the two land-view colours. */
  function CellColor(g: Grid, mode: Mode, cos: CosFn, x: int, y: int): (c: Rgb)
    requires WellFormed(g) && InGrid(g, x, y) && Renderable(g, mode, cos)
    ensures mode == BwElevation ==> c.r == c.g == c.b && 0 <= c.r <= 255
    ensures mode == Plates ==> 189 < c.r + c.g + c.b < 195
    ensures mode == PlatesAndElevation ==> 117 < c.r + c.g + c.b < 303
    ensures mode == Land ==> (c == LandGreen <==> IsLand(g, x, y)) && (c == OceanBlue <==> !IsLand(g, x, y))
  {
    match mode
    case BwElevation =>
      BwColorRange(g.elevation[y][x], g.minElevation, g.maxElevation);
      BwColor(g.elevation[y][x], g.minElevation, g.maxElevation)
    case Plates => PlatesColor(g.plates[y][x], g.actualPlates, cos)
    case PlatesAndElevation =>
      PlatesAndElevationColor(g.plates[y][x], g.actualPlates, g.elevation[y][x],
                              g.minElevation, g.maxElevation, cos)
    case Land => LandColor(IsLand(g, x, y))
  }

  // ---------------------------------------------------------------------
  // Visiting order

  /** The cells of row y, left to right. */
  function Row(width: nat, y: int): (r: seq<(int, int)>)
    ensures |r| == width
    ensures forall x :: 0 <= x < width ==> r[x] == (x, y)
  {
    seq(width, x => (x, y))
  }

  /** The cells of a width x height grid in the order the nested
      `for y` / `for x` loops visit them. */
  function RowMajor(width: nat, height: nat): (r: seq<(int, int)>)
    ensures |r| == width * height
  {
    if height == 0 then [] else RowMajor(width, height - 1) + Row(width, height - 1)
  }

  /** (a before b) in row-major order. */
  predicate Before(a: (int, int), b: (int, int)) {
    a.1 < b.1 || (a.1 == b.1 && a.0 < b.0)
  }

  /** Exactly the cells of the grid are visited. */
  lemma {:induction false} RowMajorCovers(width: nat, height: nat, p: (int, int))
    ensures p in RowMajor(width, height) <==> 0 <= p.0 < width && 0 <= p.1 < height
  {
    if height > 0 {
      RowMajorCovers(width, height - 1, p);
      if 0 <= p.0 < width && p.1 == height - 1 {
        assert Row(width, height - 1)[p.0] == p;
      }
    }
  }

  /** The visit order is strictly increasing row-major: in particular no cell
      is visited twice. */
  lemma {:induction false} RowMajorOrdered(width: nat, height: nat, i: int, j: int)
    requires 0 <= i < j < |RowMajor(width, height)|
    ensures Before(RowMajor(width, height)[i], RowMajor(width, height)[j])
  {
    var prefix := RowMajor(width, height - 1);
    var s := RowMajor(width, height);
    assert s == prefix + Row(width, height - 1);
    if j < |prefix| {
      RowMajorOrdered(width, height - 1, i, j);
    } else if i < |prefix| {
      RowMajorCovers(width, height - 1, prefix[i]);
      assert s[j] == Row(width, height - 1)[j - |prefix|];
    } else {
      assert s[i] == Row(width, height - 1)[i - |prefix|];
      assert s[j] == Row(width, height - 1)[j - |prefix|];
    }
  }

  lemma MulMonotone(a: nat, b: nat, w: nat)
    requires a <= b
    ensures a * w <= b * w
  {
  }

  /** Cell (x, y) is the (y * width + x)-th visit, and it is the only visit
      of that cell. */
  lemma {:induction false} RowMajorVisitsOnce(width: nat, height: nat, x: int, y: int)
    requires 0 <= x < width && 0 <= y < height
    ensures y * width + x < |RowMajor(width, height)|
    ensures RowMajor(width, height)[y * width + x] == (x, y)
    ensures forall i :: 0 <= i < |RowMajor(width, height)| && RowMajor(width, height)[i] == (x, y) ==> i == y * width + x
  {
    var prefix := RowMajor(width, height - 1);
    var s := RowMajor(width, height);
    assert s == prefix + Row(width, height - 1);
    MulMonotone(y, height - 1, width);
    if y < height - 1 {
      RowMajorVisitsOnce(width, height - 1, x, y);
      MulMonotone(y + 1, height - 1, width);
      assert y * width + x < |prefix|;
    } else {
      assert |prefix| == y * width;
      assert s[y * width + x] == Row(width, height - 1)[x];
    }
    forall i | 0 <= i < |s| && s[i] == (x, y)
      ensures i == y * width + x
    {
      if i < y * width + x {
        RowMajorOrdered(width, height, i, y * width + x);
      } else if i > y * width + x {
        RowMajorOrdered(width, height, y * width + x, i);
      }
    }
  }

  // ---------------------------------------------------------------------
  // The canvas

  /** The QImage the renderers draw into: a width x height pixel buffer
      (indexed [x, y], as setPixel(x, y, ...) is) and, for the proofs, the
      log of the cells setPixel was called on. */
  class Canvas {
    const width: nat
    const height: nat
    const pixels: array2<Rgb>
    ghost var writes: seq<(int, int)>

    ghost predicate Valid()
      reads this
    {
      pixels.Length0 == width && pixels.Length1 == height
    }

    constructor (width: nat, height: nat)
      ensures Valid() && fresh(pixels)
      ensures this.width == width && this.height == height && writes == []
    {
      this.width := width;
      this.height := height;
      pixels := new Rgb[width, height];
      writes := [];
    }

    /** setPixel(x, y, colour): one pixel changes, one write is logged. */
    method SetPixel(x: int, y: int, c: Rgb)
      requires Valid() && 0 <= x < width && 0 <= y < height
      modifies pixels, this`writes
      ensures pixels[x, y] == c
      ensures forall i, j :: 0 <= i < width && 0 <= j < height && (i, j) != (x, y) ==>
                pixels[i, j] == old(pixels[i, j])
      ensures writes == old(writes) + [(x, y)]
    {
      pixels[x, y] := c;
      writes := writes + [(x, y)];
    }
  }

  /** The nested loops shared by the four renderers: every cell of the grid is
      written once, in row-major order, with its view colour. */
  method Draw(g: Grid, mode: Mode, cos: CosFn, canvas: Canvas)
    requires WellFormed(g) && Renderable(g, mode, cos)
    requires canvas.Valid() && canvas.width == g.width && canvas.height == g.height
    modifies canvas.pixels, canvas`writes
    ensures canvas.writes == old(canvas.writes) + RowMajor(g.width, g.height)
    ensures forall x, y :: 0 <= x < g.width && 0 <= y < g.height ==>
              canvas.pixels[x, y] == CellColor(g, mode, cos, x, y)
  {
    var y := 0;
    while y < g.height
      invariant 0 <= y <= g.height
      invariant canvas.writes == old(canvas.writes) + RowMajor(g.width, y)
      invariant forall i, j :: 0 <= i < g.width && 0 <= j < y ==>
                  canvas.pixels[i, j] == CellColor(g, mode, cos, i, j)
    {
      var x := 0;
      while x < g.width
        invariant 0 <= x <= g.width
        invariant canvas.writes == old(canvas.writes) + RowMajor(g.width, y) + Row(g.width, y)[..x]
        invariant forall i, j :: 0 <= i < g.width && 0 <= j < y ==>
                    canvas.pixels[i, j] == CellColor(g, mode, cos, i, j)
        invariant forall i :: 0 <= i < x ==> canvas.pixels[i, y] == CellColor(g, mode, cos, i, y)
      {
        canvas.SetPixel(x, y, CellColor(g, mode, cos, x, y));
        assert Row(g.width, y)[..x + 1] == Row(g.width, y)[..x] + [(x, y)];
        x := x + 1;
      }
      assert Row(g.width, y)[..g.width] == Row(g.width, y);
      y := y + 1;
    }
  }

  /** draw_bw_elevation_on_screen: greys in [0, 255], black at the minimum
      elevation and white at the maximum. */
  method DrawBwElevationOnScreen(g: Grid, canvas: Canvas)
    requires WellFormed(g) && g.minElevation < g.maxElevation
    requires canvas.Valid() && canvas.width == g.width && canvas.height == g.height
    modifies canvas.pixels, canvas`writes
    ensures canvas.writes == old(canvas.writes) + RowMajor(g.width, g.height)
    ensures forall x, y :: 0 <= x < g.width && 0 <= y < g.height ==>
              canvas.pixels[x, y] == BwColor(g.elevation[y][x], g.minElevation, g.maxElevation)
    ensures forall x, y :: 0 <= x < g.width && 0 <= y < g.height ==>
              var c := canvas.pixels[x, y];
              c.r == c.g == c.b && 0 <= c.r <= 255
              && (g.elevation[y][x] == g.minElevation ==> c.r == 0)
              && (g.elevation[y][x] == g.maxElevation ==> c.r == 255)
  {
    Draw(g, BwElevation, _ => 1.0, canvas);
    forall x, y | 0 <= x < g.width && 0 <= y < g.height
      ensures 0 <= BwColor(g.elevation[y][x], g.minElevation, g.maxElevation).r <= 255
      ensures g.elevation[y][x] == g.minElevation ==> BwColor(g.elevation[y][x], g.minElevation, g.maxElevation).r == 0
      ensures g.elevation[y][x] == g.maxElevation ==> BwColor(g.elevation[y][x], g.minElevation, g.maxElevation).r == 255
    {
      BwColorRange(g.elevation[y][x], g.minElevation, g.maxElevation);
    }
  }

  /** draw_plates_on_screen. */
  method DrawPlatesOnScreen(g: Grid, cos: CosFn, canvas: Canvas)
    requires WellFormed(g) && g.actualPlates > 0 && PositiveNearZero(cos)
    requires canvas.Valid() && canvas.width == g.width && canvas.height == g.height
    modifies canvas.pixels, canvas`writes
    ensures canvas.writes == old(canvas.writes) + RowMajor(g.width, g.height)
    ensures forall x, y :: 0 <= x < g.width && 0 <= y < g.height ==>
              canvas.pixels[x, y] == PlatesColor(g.plates[y][x], g.actualPlates, cos)
  {
    Draw(g, Plates, cos, canvas);
  }

  /** draw_plates_and_elevation_on_screen. */
  method DrawPlatesAndElevationOnScreen(g: Grid, cos: CosFn, canvas: Canvas)
    requires WellFormed(g) && g.actualPlates > 0 && g.minElevation < g.maxElevation
    requires PositiveNearZero(cos)
    requires canvas.Valid() && canvas.width == g.width && canvas.height == g.height
    modifies canvas.pixels, canvas`writes
    ensures canvas.writes == old(canvas.writes) + RowMajor(g.width, g.height)
    ensures forall x, y :: 0 <= x < g.width && 0 <= y < g.height ==>
              canvas.pixels[x, y] == PlatesAndElevationColor(g.plates[y][x], g.actualPlates,
                g.elevation[y][x], g.minElevation, g.maxElevation, cos)
  {
    Draw(g, PlatesAndElevation, cos, canvas);
  }

  /** draw_land_on_screen: green exactly on land, blue exactly on ocean. */
  method DrawLandOnScreen(g: Grid, canvas: Canvas)
    requires WellFormed(g)
    requires canvas.Valid() && canvas.width == g.width && canvas.height == g.height
    modifies canvas.pixels, canvas`writes
    ensures canvas.writes == old(canvas.writes) + RowMajor(g.width, g.height)
    ensures forall x, y :: 0 <= x < g.width && 0 <= y < g.height ==>
              (canvas.pixels[x, y] == LandGreen <==> IsLand(g, x, y))
              && (canvas.pixels[x, y] == OceanBlue <==> !IsLand(g, x, y))
  {
    Draw(g, Land, _ => 1.0, canvas);
  }
}
