# worldengine-gui core, modelled in Dafny

worldengine-gui is a desktop front end to the worldengine world generator. It
has two pieces of sequential logic, and this project models both.

- **The map renderers of `view.py`.** `hsi_to_rgb` converts hue, saturation
  and intensity to RGB. Four `draw_*` functions visit every cell of a world
  and set one pixel per cell: black-and-white elevation, plates, plates with
  elevation, and land/ocean.
- **The orchestration of `__main__.py`.**
  - `PlatesGeneration` wraps the plate-tectonics engine: it counts steps and
    builds a World from the engine's height and plate maps.
  - `GenerationThread.run` drives that engine until it reports finished, then
    runs the fixed four-stage finalization, writing a status message before
    each call.
  - `SimulationOp.execute` runs one climate simulation between a "started" and
    a "done" status.
  - `MapCanvas.draw_world` selects a renderer by view name.

Modules:

- `Options` (options.dfy): `Option` and `Result`.
- `Decimal` (decimal.dfy): Python's `%i` on non-negative integers and its
  inverse. It is used to state what the status messages carry.
- `Hsi` (hsi.dfy): `hsi_to_rgb`. The cosine is a parameter: any function that
  is positive strictly between -60 and 60 degrees is allowed.
- `Raster` (raster.dfy): the per-cell colour rules, the row-major visit
  order, and the canvas.
  - The canvas is a class holding an `array2` of pixels, indexed `[x, y]` as
    `setPixel(x, y, …)` is. A ghost log records which cells were written, in
    order.
  - `Draw` holds the nested loops shared by the four renderers. Each renderer
    is a method that calls it.
- `Generation` (generation.dfy): the engine, `PlatesGeneration`, the World,
  the progress dialog, `GenerationThread` and `SimulationOp`, all as classes
  with mutable fields.
  - The engine is an object with a count of remaining steps.
  - The world-building stages and simulations are external. Each becomes a
    method that records that it ran.
  - Every status write, engine step, stage, simulation, world hand-over and
    completion signal is appended to a shared `Trace`. A status is recorded by
    the format that produced it (`Message`). `Text` gives the exact string
    handed to `set_status`, and that string is what the dialog's status holds. The ordering claims are
    lemmas about the trace functions `GenerationTrace` and `OperationTrace`,
    which `Run` and `Execute` are proved to produce.
- `Views` (views.dfy): the `draw_world` dispatch on the view name.

Two points where the model follows the code as written:

- The source divides by the elevation range (view.py:26, 97) and by the plate
  count (view.py:77, 94) without a guard. The renderers that divide therefore
  require `min < max` and a positive plate count, rather than modelling a
  guard the code does not have.
- The source has no failure state for external errors: `on_finish`
  (__main__.py:175, 313) is the only terminal signal, and the model has none
  either. In the model every external call returns: the `platec` engine, the
  four world-building stages and `simulation.execute`. In the source an
  exception from any of them ends the worker thread before `on_finish`, so
  Done stays disabled. `CompletionLast` and `OperationOrder` therefore
  describe only the path on which nothing raises.

## Model

| member | source | states |
|---|---|---|
| Hsi.ReduceHue | worldengine-gui/view.py:37 | Python's float `hue % 360`: the result lies in [0, 360) and differs from the hue by a whole number of turns |
| Hsi.ReduceHueIdempotent | worldengine-gui/view.py:37 | reducing an already reduced hue changes nothing |
| Hsi.ReduceHueInRange | worldengine-gui/view.py:37 | a hue already in [0, 360) is kept as it is |
| Hsi.ReduceHuePeriodic | worldengine-gui/view.py:37 | adding k whole turns to the hue leaves the reduced hue unchanged |
| Hsi.Trunc | worldengine-gui/view.py:68 | `int(x)` truncates toward zero on both signs; it does not round |
| Hsi.RatioPairSum | worldengine-gui/view.py:47-48 | the two cosine-ratio channels of a sector add up to 2·I + IS |
| Hsi.RedGreenSector | worldengine-gui/view.py:47-49 | the red–green sector formula: B = I−IS and R + G + B = 3·I wherever its denominator is nonzero |
| Hsi.GreenBlueSector | worldengine-gui/view.py:55-57 | the green–blue sector formula: R = I−IS and R + G + B = 3·I wherever its denominator is nonzero |
| Hsi.BlueRedSector | worldengine-gui/view.py:63-65 | the blue–red sector formula: G = I−IS and R + G + B = 3·I wherever its denominator is nonzero |
| Hsi.AtRed | worldengine-gui/view.py:43-45 | at hue 0, G = B, R exceeds them by 3·IS, and R + G + B = 3·I |
| Hsi.AtGreen | worldengine-gui/view.py:51-53 | at hue 120, R = B, G exceeds them by 3·IS, and R + G + B = 3·I |
| Hsi.AtBlue | worldengine-gui/view.py:59-61 | at hue 240, R = G, B exceeds them by 3·IS, and R + G + B = 3·I |
| Hsi.GreyWithoutSaturation | worldengine-gui/view.py:40-65 | with saturation 0 every branch gives R = G = B = I before truncation, for every reduced hue |
| Hsi.TruncSum | worldengine-gui/view.py:68 | truncating the three channels moves their sum by less than 3 |
| Hsi.SectorChannels | worldengine-gui/view.py:42-67 | on a non-negative reduced hue the `raise "Unexpected"` branch is taken exactly when h ≥ 360; in every other branch R + G + B = 3·I before truncation |
| Hsi.HsiToRgb | worldengine-gui/view.py:36-68 | over exact reals it never raises, for any hue; the truncated channels sum to within 3 of 3·I; with saturation 0 every channel is int(I), whatever the hue |
| Hsi.AtWholeTurns | worldengine-gui/view.py:42-45 | a hue of 360·k gives R = I+2·IS and G = B = I−IS, then truncation |
| Hsi.AtGreenBoundary | worldengine-gui/view.py:50-53 | a hue of 120 + 360·k gives G = I+2·IS and R = B = I−IS, then truncation |
| Hsi.AtBlueBoundary | worldengine-gui/view.py:58-61 | a hue of 240 + 360·k gives B = I+2·IS and R = G = I−IS, then truncation |
| Hsi.OpenSectorFixedChannel | worldengine-gui/view.py:46-65 | in each open sector the channel outside the cosine ratio is I−IS: B on (0,120), R on (120,240), G on (240,360) |
| Hsi.BoundariesAreSectorLimits | worldengine-gui/view.py:42-65 | for a cosine with the usual identities at 0, ±60 and 120 degrees, the open-sector formulas evaluated at each boundary give that boundary's value; the source's 3.14-based `cos` satisfies these identities only approximately, and no limit is proved |
| Raster.BwColor | worldengine-gui/view.py:26-28 | the black-and-white view colour is a grey: r = g = b |
| Raster.BwColorRange | worldengine-gui/view.py:22-28 | for min ≤ e ≤ max the grey lies in [0, 255]; it is black at the minimum and white at the maximum |
| Raster.NormalizedInUnit | worldengine-gui/view.py:26 | the normalized elevation of a cell between the minimum and maximum lies in [0, 1] |
| Raster.NormalizedAtEnds | worldengine-gui/view.py:22-26 | the normalization is 0 at the minimum and 1 at the maximum |
| Raster.BwColorMonotone | worldengine-gui/view.py:26-28 | a higher cell is never drawn darker |
| Raster.QuotientMonotone | worldengine-gui/view.py:26 | dividing by the positive elevation range keeps the order of elevations |
| Raster.IsLand | worldengine-gui/view.py:110 | definition: `world.is_land((x, y))`, read as "the cell is not ocean"; what the land view draws from it is stated by `LandColor` |
| Raster.Normalized | worldengine-gui/view.py:26 | `(e - min_el) / delta_el`: scaling the result back by the range and adding the minimum gives the elevation |
| Raster.PlateHue | worldengine-gui/view.py:77 | `plate * (360 / n_plates)`: the hue is plate/n of a full turn, and it lies in [0, 360) for every plate id below the plate count |
| Raster.PlatesColor | worldengine-gui/view.py:77-80 | the plates-view colour, HSI of the plate hue at s = 0.5 and i = 64: its channels sum to within 3 of 192 |
| Raster.PlatesColorPeriodic | worldengine-gui/view.py:77-80 | plate ids that differ by the plate count are drawn in the same colour |
| Raster.PlateHuePeriodic | worldengine-gui/view.py:77 | plate ids that differ by the plate count get the same reduced hue |
| Raster.PlateZeroColor | worldengine-gui/view.py:77-80 | plate 0 is always drawn (128, 32, 32) in the plates view |
| Raster.ElevationIntensity | worldengine-gui/view.py:97 | the plates-and-elevation intensity lies in [40, 100] for min ≤ e ≤ max; it is 40 at the minimum and 100 at the maximum |
| Raster.PlatesAndElevationColor | worldengine-gui/view.py:94-98 | the plates-and-elevation colour, HSI of the plate hue at s = 0.6 and the elevation intensity: for min ≤ e ≤ max its channels sum to more than 117 and less than 303 |
| Raster.LandColor | worldengine-gui/view.py:106-113 | the land view uses only (0,200,0) and (0,0,200), and a cell is green exactly when it is land |
| Raster.CellColor | worldengine-gui/view.py:25-29 | the colour each view gives a cell: a grey in [0, 255] (view.py:25-28), a plate colour summing to within 3 of 192 (view.py:77-80), a plate colour summing to between 117 and 303 (view.py:94-98), or green exactly on land and blue exactly on ocean (view.py:106-113) |
| Raster.Row | worldengine-gui/view.py:24 | definition: the inner loop's visits (0, y) … (width−1, y), in that order; coverage, order and uniqueness are stated by `RowMajorCovers`, `RowMajorOrdered` and `RowMajorVisitsOnce` |
| Raster.RowMajor | worldengine-gui/view.py:23-24 | the nested loops make width·height visits |
| Raster.RowMajorCovers | worldengine-gui/view.py:23-24 | a cell is visited exactly when 0 ≤ x < width and 0 ≤ y < height |
| Raster.RowMajorOrdered | worldengine-gui/view.py:23-24 | later visits are strictly later in row-major order (earlier row, or same row and further left, comes first) |
| Raster.RowMajorVisitsOnce | worldengine-gui/view.py:23-24 | cell (x, y) is visit number y·width + x and no other visit is to that cell |
| Raster.Canvas.constructor | worldengine-gui/__main__.py:216-218 | a canvas of the world's width and height, with nothing written yet |
| Raster.Canvas.SetPixel | worldengine-gui/view.py:29 | `setPixel(x, y, c)`: pixel (x, y) becomes c, every other pixel is unchanged, and one write is logged |
| Raster.Draw | worldengine-gui/view.py:23-29 | the loop shape shared by the four renderers: the write log grows by exactly the row-major visit sequence, and every pixel holds its cell's colour for the view |
| Raster.DrawBwElevationOnScreen | worldengine-gui/view.py:17-29 | every cell is written once, row by row, with its grey; every pixel is in [0, 255], black at the minimum elevation and white at the maximum |
| Raster.DrawPlatesOnScreen | worldengine-gui/view.py:71-82 | every cell is written once, row by row, with the HSI colour of its plate at s = 0.5, i = 64 |
| Raster.DrawPlatesAndElevationOnScreen | worldengine-gui/view.py:85-100 | every cell is written once, row by row, with the HSI colour of its plate at s = 0.6 and its elevation intensity |
| Raster.DrawLandOnScreen | worldengine-gui/view.py:103-113 | every cell is written once, row by row; a pixel is (0,200,0) exactly on land and (0,0,200) exactly on ocean |
| Decimal.NatToString | worldengine-gui/__main__.py:162 | `%i` of a non-negative integer: a non-empty string of digits with no leading zero |
| Decimal.NatToStringRoundTrip | worldengine-gui/__main__.py:162 | reading the digits back gives the number |
| Decimal.NatToStringInjective | worldengine-gui/__main__.py:162 | different counts give different step messages |
| Decimal.TrailingDigitsOfAppend | worldengine-gui/__main__.py:310-312 | a numeral written after text that does not end in a digit is exactly the trailing digits of the result |
| Generation.Text | worldengine-gui/__main__.py:162-173 | definition: the exact string `set_status` receives for each recorded status, including the operation statuses of __main__.py:310 and :312; what the strings carry is stated by `StepMessage`, `StartedMessage` and `DoneMessage` |
| Generation.StageMessage | worldengine-gui/__main__.py:163-171 | definition: the status written right before each world-building call |
| Generation.StepMessage | worldengine-gui/__main__.py:162 | the step status `'Plate simulation: step %i' % n` gives back exactly n |
| Generation.SeedCarried | worldengine-gui/__main__.py:310-312 | a message `title + middle + '%i' % seed + ')'`, with `middle` ending in a space, carries exactly that seed |
| Generation.TitlePrefix | worldengine-gui/__main__.py:310-312 | such a message begins with the title |
| Generation.SeedOfFormatted | worldengine-gui/__main__.py:310-312 | a message ending in `(seed %i)` gives back exactly that seed |
| Generation.StartedMessage | worldengine-gui/__main__.py:310 | `"%s: started (seed %i)" % (title, seed)` begins with the title and carries exactly that seed |
| Generation.DoneMessage | worldengine-gui/__main__.py:312 | `"%s: done (seed %i)" % (title, seed)` begins with the title and carries exactly that seed |
| Generation.Engine.constructor | worldengine-gui/__main__.py:190-193 | `platec.create` keeps its arguments; the engine has its given number of steps to go |
| Generation.Engine.IsFinished | worldengine-gui/__main__.py:197 | `platec.is_finished(p) != 0`: the engine is finished exactly when no steps are left |
| Generation.Engine.Step | worldengine-gui/__main__.py:198 | `platec.step`: one step fewer to go, and one engine step in the trace |
| Generation.ArrayToMatrix | worldengine-gui/__main__.py:210-211 | reshaping a width·height buffer gives height rows of width cells, with cell (x, y) taken from index y·width + x |
| Generation.FirstRow | worldengine-gui/__main__.py:210-211 | the first row of the reshape is the first width cells of the buffer |
| Generation.DropFirstRow | worldengine-gui/__main__.py:210-211 | the rows after the first are the reshape of the rest of the buffer |
| Generation.ArrayToMatrixRoundTrip | worldengine-gui/__main__.py:210-211 | flattening the rows gives the buffer back, so the reshape loses nothing |
| Generation.World.constructor | worldengine-gui/__main__.py:205-207 | the new World keeps its name, size, seed, plate count, ocean level and the name of its generation step, and has no layers, stages or simulations yet |
| Generation.World.SetElevation | worldengine-gui/__main__.py:210 | sets the elevation grid and nothing else |
| Generation.World.SetPlates | worldengine-gui/__main__.py:211 | sets the plate grid and nothing else |
| Generation.CenterLand | worldengine-gui/__main__.py:166 | records the stage on the world and in the trace, and leaves the simulations alone |
| Generation.AddNoiseToElevation | worldengine-gui/__main__.py:168 | records the stage with its noise seed on the world and in the trace |
| Generation.PlaceOceansAtMapBorders | worldengine-gui/__main__.py:170 | records the stage on the world and in the trace |
| Generation.InitializeOceanAndThresholds | worldengine-gui/__main__.py:172 | records the stage on the world and in the trace |
| Generation.PlatesGeneration.constructor | worldengine-gui/__main__.py:179-194 | a new generation keeps its parameters, creates an engine with exactly these arguments, and starts at steps = 0 |
| Generation.PlatesGeneration.Step | worldengine-gui/__main__.py:196-202 | if the engine is not finished: one engine step, steps + 1, returns (False, steps). If it is finished: returns (True, steps) with no engine call and no state change, so repeated calls give the same answer |
| Generation.PlatesGeneration.World | worldengine-gui/__main__.py:204-212 | a fresh World with the generation's parameters and the step "plates", and with the engine's maps reshaped into grids |
| Generation.ProgressDialog.constructor | worldengine-gui/__main__.py:112-132 | the status starts as `....`, Done is disabled, and there is no world |
| Generation.ProgressDialog.SetStatus | worldengine-gui/__main__.py:146-147 | sets the status text, leaves Done and the world alone, and logs the status |
| Generation.ProgressDialog.OnFinish | worldengine-gui/__main__.py:143-144 | enables Done, leaves the status and the world alone, and logs completion |
| Generation.StepRounds | worldengine-gui/__main__.py:159-162 | k rounds of the loop make 2·k events |
| Generation.StepRoundsAt | worldengine-gui/__main__.py:159-162 | round i is an engine step followed by the status carrying count s + i + 1 |
| Generation.StepRoundsOnlySteps | worldengine-gui/__main__.py:159-162 | the loop records only engine steps and statuses |
| Generation.StepRoundsCount | worldengine-gui/__main__.py:159-162 | k rounds contain exactly k engine steps |
| Generation.GenerationThread.constructor | worldengine-gui/__main__.py:151-155 | a generation with the default parameters and the given seed, name, size and plate count |
| Generation.GenerationThread.StepAndReport | worldengine-gui/__main__.py:161-162 | one pass of the loop: a step when the engine is not finished (one more step taken, one fewer to go), none when it is, followed by the status carrying the count step() returned |
| Generation.GenerationThread.StepUntilFinished | worldengine-gui/__main__.py:159-162 | the loop leaves only once step() has reported finished; it takes exactly the remaining steps, and after every call writes the status with the count that call returned |
| Generation.GenerationThread.ApplyStages | worldengine-gui/__main__.py:165-172 | the four in-place stages run in order, each directly after its status; the world records exactly those four stages and no simulation |
| Generation.GenerationThread.Finalize | worldengine-gui/__main__.py:163-175 | the finalization events in order; the dialog ends up holding a fresh World with the four stages applied in order and the ocean layer present, a completed status, and Done enabled |
| Generation.GenerationThread.Run | worldengine-gui/__main__.py:157-175 | the whole of run(): its trace is `GenerationTrace`, the engine is finished after exactly its remaining steps, and the dialog holds the finalized world with Done enabled |
| Generation.Finalization | worldengine-gui/__main__.py:163-175 | definition: the events run() records after the loop, each call after its status, ending with the hand-over and completion; what it guarantees is stated by `FinalizationCounts`, `StagesAfterLoopAndAnnounced` and `CompletionLast` |
| Generation.StageEvents | worldengine-gui/__main__.py:165-172 | definition: the four in-place stages in source order, each right after its status; `ApplyStages` is proved to record exactly these |
| Generation.GenerationTrace | worldengine-gui/__main__.py:159-175 | definition: the events run() records, starting from s0 steps taken with n steps to go; what it guarantees is stated by `EngineStepsInTrace`, `LastCountRepeated`, `StagesAfterLoopAndAnnounced` and `CompletionLast` |
| Generation.EngineStepsInTrace | worldengine-gui/__main__.py:159-162 | run() steps the engine exactly as many times as it had steps to go |
| Generation.LastCountRepeated | worldengine-gui/__main__.py:160-162 | the call that reports finished repeats the last count, so its status is written twice in a row |
| Generation.StagesAfterLoopAndAnnounced | worldengine-gui/__main__.py:163-172 | every world-building call comes after every engine step, and directly after the status that announces it |
| Generation.CompletionLast | worldengine-gui/__main__.py:173-175 | the world is handed over once and on_finish is called once; they are the last two events, right after the completed status |
| Generation.FinalizationCounts | worldengine-gui/__main__.py:173-175 | the finalization hands over the world exactly once and signals completion exactly once |
| Generation.ExecuteSimulation | worldengine-gui/__main__.py:311 | `simulation.execute(world, seed)` runs once on the world and is recorded |
| Generation.SimulationOp.constructor | worldengine-gui/__main__.py:296-298 | keeps the title and the simulation |
| Generation.SimulationOp.Execute | worldengine-gui/__main__.py:303-313 | for a seed in [0, 65536]: its trace is exactly started status, one simulation run with that seed, done status, completion. The world gains that one simulation; Done is enabled |
| Generation.OperationTrace | worldengine-gui/__main__.py:309-313 | definition: the events execute() records, started status, simulation run, done status, completion; what it guarantees is stated by `OperationOrder` |
| Generation.OperationOrder | worldengine-gui/__main__.py:309-313 | the simulation runs exactly once, completion is signalled exactly once and last, and both statuses carry the seed it ran with |
| Views.ParseView | worldengine-gui/__main__.py:223-236 | a name selects the view with exactly that name; any other name gives the error `Unknown view <name>`, only when no view has that name |
| Views.ParseViewName | worldengine-gui/__main__.py:223-234 | each of the six views is selected by its own name |
| Views.ViewName | worldengine-gui/__main__.py:483-505 | the name each menu action stores in `current_view`; with `ParseViewName`, each one selects its own view |
| Views.ViewNameInjective | worldengine-gui/__main__.py:223-234 | no two views share a name, so no name selects two renderers |
| Views.RasterMode | worldengine-gui/__main__.py:223-234 | all views except precipitations and watermap use a renderer of view.py |
| Views.RasterModeInjective | worldengine-gui/__main__.py:223-230 | distinct raster views use distinct renderers |
| Views.DrawWorld | worldengine-gui/__main__.py:221-236 | dispatches as `ParseView` does. A raster view writes every cell once, row by row, with that view's colour. An unknown name leaves the canvas untouched and returns the error |

## Left out

- Qt: the widgets, dialogs, menus and `set_world`'s enable toggles are left out. So are `label.resize`, `_update` / `setPixmap`, and QColor's handling of out-of-range channels. A pixel is the integer triple handed to QColor; no clamping is modelled.
- Threading (`GenerationThread` and `OperationThread` as threads) is left out. The model is sequential.
- Opening and saving protobuf files is file I/O and is left out.
- The platec engine internals are left out. The engine is a count of remaining steps plus the flat maps it will yield, both given as parameters.
- What `center_land`, `add_noise_to_elevation`, `place_oceans_at_map_borders` and `initialize_ocean_and_thresholds` do to the grids is external and is left out. The model records only that each ran, in order.
- The climate simulations are external. The model records only that each ran, with its seed.
- Views.DrawWorld: makes no claim about what the precipitation and water-map views draw. `PrecipitationsView` and `WatermapView` are external renderers.
- `draw_simple_elevation_on_screen` is left out. Its colours come entirely from worldengine's external `elevation_color`.
- The numeric value of `cos` (math.cos with 3.14 for π) and floating-point rounding are left out. Reals are exact, and the cosine is a parameter.
- Hsi.HsiToRgb: never raising holds over exact reals only. With floats, a tiny negative hue such as -1e-20 gives `hue % 360 == 360.0` and takes the `raise` at view.py:67. The renderers never pass a negative hue (`plate * (360 / n_plates)` with non-negative plate ids), and on non-negative hues the float modulo is exact.
- Python 2 semantics are left out: `/` is read as Python 3 true division. Under Python 2, which the `/usr/bin/python` shebang at __main__.py:1 may select, `360 / n_plates` (view.py:77, 94) and `x / 180` in `cos` (view.py:33) would floor on integers, and `cos` would then not be positive near zero in the sense `PositiveNearZero` asks.
- `random.randint` is left out. The noise seed (0..4096) and the operation seed (0..65536) are inputs in those ranges.
- `array_to_matrix` and `World` are worldengine code and are not part of this model. They are modelled by the reshape their use implies and by a record of the fields handed over. The `Step` object `Step.get_by_name("plates")` is recorded by its name only.
- `World.min_elevation`, `max_elevation`, `n_actual_plates` and `is_land` are worldengine code and are not part of this model.
  - The renderers read the first three as fields of the grid they are given.
  - `WellFormed` asks only that every elevation lies between the minimum and the maximum.
  - `is_land` is taken as "not ocean".
- Raster.DrawBwElevationOnScreen, Raster.DrawPlatesOnScreen, Raster.DrawPlatesAndElevationOnScreen and Views.DrawWorld: each requires a non-empty elevation range and a positive plate count wherever it divides by them. The source divides there without a guard and would raise ZeroDivisionError.
- Views.DrawWorld: also requires a canvas of the world's size, as `set_world` creates it.
- Hsi.HsiToRgb: requires the cosine to be positive strictly between -60 and 60 degrees. That is where every sector denominator lies, and it holds for 3.14-based degrees.
