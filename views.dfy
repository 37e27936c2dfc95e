/** The view dispatch of the map canvas (`MapCanvas.draw_world` in
    __main__.py): a view name selects one renderer, and any other name is an
    error. Four views are the raster renderers of view.py; the precipitation
    and water-map views are renderers of the worldengine library. */
module Views {
  import opened Options
  import Hsi
  import Raster

  datatype View =
    | BwView
    | PlatesView
    | PlatesAndElevationView
    | LandView
    | PrecipitationsView
    | WatermapView

  /** The name the menu actions store in `current_view`. */
  function ViewName(v: View): string {
    match v
    case BwView => "bw"
    case PlatesView => "plates"
    case PlatesAndElevationView => "plates and elevation"
    case LandView => "land"
    case PrecipitationsView => "precipitations"
    case WatermapView => "watermap"
  }

  /** The if/elif chain of draw_world on the name: the view of that name, or
      the message of the "Unknown view" exception when no view has it. */
  function ParseView(name: string): (r: Result<View, string>)
    ensures r.Ok? ==> ViewName(r.value) == name
    ensures r.Err? ==> r.error == "Unknown view " + name && forall v: View :: ViewName(v) != name
  {
    if name == "bw" then Ok(BwView)
    else if name == "plates" then Ok(PlatesView)
    else if name == "plates and elevation" then Ok(PlatesAndElevationView)
    else if name == "land" then Ok(LandView)
    else if name == "precipitations" then Ok(PrecipitationsView)
    else if name == "watermap" then Ok(WatermapView)
    else Err("Unknown view " + name)
  }

  /** Every view's own name selects that view, so no two views share a name. */
  lemma ParseViewName(v: View)
    ensures ParseView(ViewName(v)) == Ok(v)
  {
    match v
    case BwView =>
    case PlatesView =>
    case PlatesAndElevationView =>
    case LandView =>
    case PrecipitationsView =>
    case WatermapView =>
  }

  lemma ViewNameInjective(a: View, b: View)
    ensures ViewName(a) == ViewName(b) ==> a == b
  {
    ParseViewName(a);
    ParseViewName(b);
  }

  /** The renderer of view.py a view uses, if it is one of them. */
  function RasterMode(v: View): (m: Option<Raster.Mode>)
    ensures m.None? <==> v == PrecipitationsView || v == WatermapView
  {
    match v
    case BwView => Some(Raster.BwElevation)
    case PlatesView => Some(Raster.Plates)
    case PlatesAndElevationView => Some(Raster.PlatesAndElevation)
    case LandView => Some(Raster.Land)
    case PrecipitationsView => None
    case WatermapView => None
  }

  /** Distinct views use distinct renderers. */
  lemma RasterModeInjective(a: View, b: View)
    requires RasterMode(a).Some?
    ensures RasterMode(a) == RasterMode(b) ==> a == b
  {
  }

  /** What the selected raster renderer needs of the world; nothing when the
      name selects an external view or no view. */
  ghost predicate NameRenderable(g: Raster.Grid, name: string, cos: Hsi.CosFn) {
    match ParseView(name)
    case Ok(v) => RasterMode(v).Some? ==> Raster.Renderable(g, RasterMode(v).value, cos)
    case Err(_) => true
  }

  /** draw_world(world, view) on a canvas of the world's size (set_world
      creates the canvas from the world's width and height). A raster view
      writes every cell once, row by row, with that view's colour; an
      unknown name raises before anything is drawn. What the two external
      views draw is not part of this model. */
  method DrawWorld(canvas: Raster.Canvas, g: Raster.Grid, name: string, cos: Hsi.CosFn)
    returns (r: Result<View, string>)
    requires Raster.WellFormed(g) && NameRenderable(g, name, cos)
    requires canvas.Valid() && canvas.width == g.width && canvas.height == g.height
    modifies canvas.pixels, canvas`writes
    ensures r == ParseView(name)
    ensures r.Ok? && RasterMode(r.value).Some? ==>
              && canvas.writes == old(canvas.writes) + Raster.RowMajor(g.width, g.height)
              && forall x, y :: 0 <= x < g.width && 0 <= y < g.height ==>
                   canvas.pixels[x, y] == Raster.CellColor(g, RasterMode(r.value).value, cos, x, y)
    ensures r.Err? ==> canvas.writes == old(canvas.writes) && unchanged(canvas.pixels)
  {
    r := ParseView(name);
    if r.Ok? {
      match r.value
      case BwView => Raster.DrawBwElevationOnScreen(g, canvas);
      case PlatesView => Raster.DrawPlatesOnScreen(g, cos, canvas);
      case PlatesAndElevationView => Raster.DrawPlatesAndElevationOnScreen(g, cos, canvas);
      case LandView => Raster.DrawLandOnScreen(g, canvas);
      case PrecipitationsView =>
      case WatermapView =>
    }
  }
}
