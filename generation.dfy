/** The generation and operation orchestration of __main__.py:
    `PlatesGeneration`, `GenerationThread.run` and `SimulationOp.execute`.

    The tectonics engine (platec), the world-building stages and the climate
    simulations are external. The engine is an object that reports finished
    after a given number of steps and then yields given buffers; every stage,
    simulation, status write and completion signal is recorded as an event of
    a shared trace, so that the order in which they happen can be stated. */
module Generation {
  import opened Options
  import opened Decimal

  // ---------------------------------------------------------------------
  // Events

  /** The world-building calls: `plates_generation.world()` followed by the
      four stages of worldengine.plates. */
  datatype Stage =
    | WorldBuilt
    | LandCentered
    | NoiseAdded(noiseSeed: int)
    | OceansAtBorders
    | OceanAndThresholds

  /** The simulations a SimulationOp may wrap. */
  datatype Simulation =
    | Precipitation | Erosion | Watermap | Irrigation | Humidity | Temperature | Permeability | Biome

  datatype Event =
    | Status(message: Message)                         // ui.set_status(Text(message))
    | EngineStep                                       // platec.step(p)
    | StageRun(stage: Stage)                           // one world-building call
    | WorldAssigned                                    // ui.world = w
    | Finished                                         // ui.on_finish()
    | SimulationRun(simulation: Simulation, seed: int) // simulation.execute(world, seed)

  /** The ordered record of everything the worker does. */
  class Trace {
    var events: seq<Event>

    constructor ()
      ensures events == []
    {
      events := [];
    }

    method Add(e: Event)
      modifies this
      ensures events == old(events) + [e]
    {
      events := events + [e];
    }
  }

  /** Number of occurrences of `e` in `s`. */
  function CountOf(e: Event, s: seq<Event>): nat {
    if s == [] then 0 else (if s[0] == e then 1 else 0) + CountOf(e, s[1..])
  }

  lemma {:induction false} CountOfAppend(e: Event, a: seq<Event>, b: seq<Event>)
    ensures CountOf(e, a + b) == CountOf(e, a) + CountOf(e, b)
  {
    if a != [] {
      assert (a + b)[1..] == a[1..] + b;
      CountOfAppend(e, a[1..], b);
    } else {
      assert a + b == b;
    }
  }

  // ---------------------------------------------------------------------
  // Status messages

  const StepPrefix := "Plate simulation: step "
  const TerminatingMessage := "Plate simulation: terminating plates simulation"
  const CenterLandMessage := "Plate simulation: center land"
  const AddingNoiseMessage := "Plate simulation: adding noise"
  const ForcingOceansMessage := "Plate simulation: forcing oceans at borders"
  const FinalizationMessage := "Plate simulation: finalization (can take a while)"
  const CompletedMessage := "Plate simulation: completed"

  /** 'Plate simulation: step %i' % n: a step status that gives back exactly
      the count it was formatted from. */
  function StepMessage(n: nat): (m: string)
    ensures StepCountOf(m) == Some(n)
  {
    var m := StepPrefix + NatToString(n);
    assert m[..|StepPrefix|] == StepPrefix;
    assert m[|StepPrefix|..] == NatToString(n);
    NatToStringRoundTrip(n);
    m
  }

  /** The step count a step status carries, if it is one. */
  function StepCountOf(message: string): Option<nat> {
    if |message| > |StepPrefix| && message[..|StepPrefix|] == StepPrefix
       && AllDigits(message[|StepPrefix|..])
    then Some(DigitsValue(message[|StepPrefix|..]))
    else None
  }

  /** The status written before each world-building call. */
  function StageMessage(s: Stage): Message {
    match s
    case WorldBuilt => TerminatingStatus
    case LandCentered => CenterLandStatus
    case NoiseAdded(_) => AddingNoiseStatus
    case OceansAtBorders => ForcingOceansStatus
    case OceanAndThresholds => FinalizationStatus
  }

  /** '%s: started (seed %i)' % (title, seed): it begins with the title and
      carries the seed. */
  function StartedMessage(title: string, seed: nat): (m: string)
    ensures SeedOf(m) == Some(seed)
    ensures |title| < |m| && m[..|title|] == title
  {
    SeedCarried(title, ": started (seed ", seed);
    TitlePrefix(title, ": started (seed ", seed);
    title + ": started (seed " + NatToString(seed) + ")"
  }

  /** '%s: done (seed %i)' % (title, seed): it begins with the title and
      carries the seed. */
  function DoneMessage(title: string, seed: nat): (m: string)
    ensures SeedOf(m) == Some(seed)
    ensures |title| < |m| && m[..|title|] == title
  {
    SeedCarried(title, ": done (seed ", seed);
    TitlePrefix(title, ": done (seed ", seed);
    title + ": done (seed " + NatToString(seed) + ")"
  }

  /** The statuses the worker threads write, by the format that produces
      them; `Text` is the string handed to set_status. */
  datatype Message =
    | StepStatus(count: nat)
    | TerminatingStatus
    | CenterLandStatus
    | AddingNoiseStatus
    | ForcingOceansStatus
    | FinalizationStatus
    | CompletedStatus
    | StartedStatus(title: string, seed: nat)
    | DoneStatus(title: string, seed: nat)

  /** The exact string set_status receives for each status. */
  function Text(m: Message): string {
    match m
    case StepStatus(n) => StepMessage(n)
    case TerminatingStatus => TerminatingMessage
    case CenterLandStatus => CenterLandMessage
    case AddingNoiseStatus => AddingNoiseMessage
    case ForcingOceansStatus => ForcingOceansMessage
    case FinalizationStatus => FinalizationMessage
    case CompletedStatus => CompletedMessage
    case StartedStatus(title, seed) => StartedMessage(title, seed)
    case DoneStatus(title, seed) => DoneMessage(title, seed)
  }

  /** The seed a message ending in '(seed N)' carries. */
  function SeedOf(message: string): Option<nat> {
    if |message| > 0 && message[|message| - 1] == ')' then
      var d := TrailingDigits(message[..|message| - 1]);
      if d != [] then Some(DigitsValue(d)) else None
    else None
  }

  lemma {:induction false} SeedOfFormatted(prefix: string, seed: nat)
    requires |prefix| > 0 && prefix[|prefix| - 1] == ' '
    ensures SeedOf(prefix + NatToString(seed) + ")") == Some(seed)
  {
    var m := prefix + NatToString(seed) + ")";
    assert m[..|m| - 1] == prefix + NatToString(seed);
    TrailingDigitsOfAppend(prefix, NatToString(seed));
    NatToStringRoundTrip(seed);
  }

  /** A message `title + middle + '%i' % seed + ')'`, with `middle` ending in
      a space, carries the seed... */
  lemma SeedCarried(title: string, middle: string, seed: nat)
    requires |middle| > 0 && middle[|middle| - 1] == ' '
    ensures SeedOf(title + middle + NatToString(seed) + ")") == Some(seed)
  {
    var p := title + middle;
    assert p[|p| - 1] == middle[|middle| - 1];
    SeedOfFormatted(p, seed);
  }

  /** ... and begins with the title. */
  lemma TitlePrefix(title: string, middle: string, seed: nat)
    ensures (title + middle + NatToString(seed) + ")")[..|title|] == title
  {
    PrefixOf(title, middle + NatToString(seed) + ")");
    assert title + middle + NatToString(seed) + ")" == title + (middle + NatToString(seed) + ")");
  }

  lemma PrefixOf(a: string, b: string)
    ensures (a + b)[..|a|] == a
  {
  }


  // ---------------------------------------------------------------------
  // The engine and the world

  /** The arguments of platec.create. */
  datatype EngineParams = EngineParams(
    seed: int, width: int, height: int, seaLevel: real, erosionPeriod: int,
    foldingRatio: real, aggrOverlapAbs: int, aggrOverlapRel: real,
    cycleCount: int, numPlates: int)

  /** What the external engine will do: how many steps it takes before it
      reports finished, and the flat height and plate maps it then yields. */
  datatype Physics = Physics(steps: nat, heightmap: seq<real>, platesMap: seq<int>)

  /** An engine handle: finished once no steps remain. */
  class Engine {
    const params: EngineParams
    const physics: Physics
    var remaining: nat

    constructor (params: EngineParams, physics: Physics)
      ensures this.params == params && this.physics == physics
      ensures remaining == physics.steps
    {
      this.params := params;
      this.physics := physics;
      remaining := physics.steps;
    }

    /** platec.is_finished(p) != 0 */
    predicate IsFinished()
      reads this
    {
      remaining == 0
    }

    /** platec.step(p): one increment of the simulation. */
    method Step(t: Trace)
      requires remaining > 0
      modifies this, t
      ensures remaining == old(remaining) - 1
      ensures t.events == old(t.events) + [EngineStep]
    {
      remaining := remaining - 1;
      t.Add(EngineStep);
    }
  }

  /** array_to_matrix(flat, width, height): row y holds the cells
      y * width .. y * width + width - 1 of the flat buffer. */
  function ArrayToMatrix<T>(flat: seq<T>, width: nat, height: nat): (m: seq<seq<T>>)
    requires |flat| == width * height
    ensures |m| == height
    ensures forall y :: 0 <= y < height ==> |m[y]| == width
    ensures forall y, x :: 0 <= y < height && 0 <= x < width ==>
              RowStart(y, width) + x < |flat| && m[y][x] == flat[RowStart(y, width) + x]
  {
    var m := seq(height, y requires 0 <= y < height =>
      RowInside(y, width, height); flat[RowStart(y, width)..RowStart(y, width) + width]);
    assert forall y :: 0 <= y < height ==> RowStart(y, width) + width <= |flat| by {
      forall y | 0 <= y < height
        ensures RowStart(y, width) + width <= |flat|
      {
        RowInside(y, width, height);
      }
    }
    m
  }

  /** Index of the first cell of row y. */
  function RowStart(y: nat, width: nat): nat {
    y * width
  }

  lemma RowInside(y: nat, width: nat, height: nat)
    requires y < height
    ensures RowStart(y, width) + width <= width * height
  {
    assert (y + 1) * width <= height * width by {
      var k := height - (y + 1);
      assert height * width == (y + 1) * width + k * width;
    }
  }

  lemma RowStartNext(y: nat, width: nat)
    ensures RowStart(y + 1, width) == RowStart(y, width) + width
  {
  }

  /** Rows concatenated, top to bottom. */
  function Flatten<T>(m: seq<seq<T>>): seq<T> {
    if m == [] then [] else m[0] + Flatten(m[1..])
  }

  /** Reshaping loses nothing: flattening the matrix gives the buffer back. */
  lemma {:induction false} ArrayToMatrixRoundTrip<T>(flat: seq<T>, width: nat, height: nat)
    requires |flat| == width * height
    ensures Flatten(ArrayToMatrix(flat, width, height)) == flat
  {
    if height > 0 {
      var m := ArrayToMatrix(flat, width, height);
      RestLength(width, height);
      DropFirstRow(flat, width, height);
      FirstRow(flat, width, height);
      ArrayToMatrixRoundTrip(flat[width..], width, height - 1);
      FlattenSplit(m, flat, width);
    }
  }

  /** A first row equal to the first `width` cells, followed by rows that
      flatten to the rest, flatten to the whole buffer. */
  lemma FlattenSplit<T>(m: seq<seq<T>>, flat: seq<T>, width: nat)
    requires |m| > 0 && width <= |flat|
    requires m[0] == flat[..width] && Flatten(m[1..]) == flat[width..]
    ensures Flatten(m) == flat
  {
    assert flat == flat[..width] + flat[width..];
  }

  /** The first row is the first width cells of the buffer. */
  lemma FirstRow<T>(flat: seq<T>, width: nat, height: nat)
    requires |flat| == width * height && height > 0
    ensures width <= |flat| && ArrayToMatrix(flat, width, height)[0] == flat[..width]
  {
    RestLength(width, height);
    var m := ArrayToMatrix(flat, width, height);
    forall x | 0 <= x < width
      ensures m[0][x] == flat[x]
    {
      assert RowStart(0, width) == 0;
    }
  }

  lemma RestLength(width: nat, height: nat)
    requires height > 0
    ensures width <= width * height
    ensures width * height - width == width * (height - 1)
  {
  }

  /** The rows after the first are the reshape of the rest of the buffer. */
  lemma DropFirstRow<T>(flat: seq<T>, width: nat, height: nat)
    requires |flat| == width * height && height > 0
    ensures width <= |flat| && |flat[width..]| == width * (height - 1)
    ensures ArrayToMatrix(flat, width, height)[1..] == ArrayToMatrix(flat[width..], width, height - 1)
  {
    RestLength(width, height);
    var m := ArrayToMatrix(flat, width, height);
    var m' := ArrayToMatrix(flat[width..], width, height - 1);
    forall y | 0 <= y < height - 1
      ensures m[y + 1] == m'[y]
    {
      RowStartNext(y, width);
      forall x | 0 <= x < width
        ensures m[y + 1][x] == m'[y][x]
      {
      }
    }
    assert m[1..] == m' by {
      forall y | 0 <= y < height - 1
        ensures m[1..][y] == m'[y]
      {
        assert m[1..][y] == m[y + 1];
      }
    }
  }

  /** The World the generation hands to the GUI, mutated in place afterwards.
      `stages` records the finalization stages applied to it, `simulations`
      the simulations run on it, in order. */
  class World {
    const name: string
    const width: nat
    const height: nat
    const seed: int
    const nPlates: int
    const oceanLevel: real
    const step: string
    var elevation: seq<seq<real>>
    var plates: seq<seq<int>>
    var stages: seq<Stage>
    var simulations: seq<(Simulation, int)>

    /** World(name, width, height, seed, n_plates, ocean_level, step); the
        step is recorded by its name. */
    constructor (name: string, width: nat, height: nat, seed: int, nPlates: int, oceanLevel: real,
                 step: string)
      ensures this.name == name && this.width == width && this.height == height
      ensures this.seed == seed && this.nPlates == nPlates && this.oceanLevel == oceanLevel
      ensures this.step == step
      ensures elevation == [] && plates == [] && stages == [] && simulations == []
    {
      this.name := name;
      this.width := width;
      this.height := height;
      this.seed := seed;
      this.nPlates := nPlates;
      this.oceanLevel := oceanLevel;
      this.step := step;
      elevation := [];
      plates := [];
      stages := [];
      simulations := [];
    }

    method SetElevation(m: seq<seq<real>>)
      modifies this
      ensures elevation == m
      ensures plates == old(plates) && stages == old(stages) && simulations == old(simulations)
    {
      elevation := m;
    }

    method SetPlates(m: seq<seq<int>>)
      modifies this
      ensures plates == m
      ensures elevation == old(elevation) && stages == old(stages) && simulations == old(simulations)
    {
      plates := m;
    }

    /** The ocean mask and thresholds exist once the last stage has run. */
    predicate HasOceanLayer()
      reads this
    {
      OceanAndThresholds in stages
    }
  }

  /** The four in-place stages of worldengine.plates. What they do to the
      elevation and plate grids is external; the model records that they ran. */
  method CenterLand(w: World, t: Trace)
    modifies w, t
    ensures w.stages == old(w.stages) + [LandCentered]
    ensures w.simulations == old(w.simulations)
    ensures t.events == old(t.events) + [StageRun(LandCentered)]
  {
    w.stages := w.stages + [LandCentered];
    t.Add(StageRun(LandCentered));
  }

  method AddNoiseToElevation(w: World, noiseSeed: int, t: Trace)
    modifies w, t
    ensures w.stages == old(w.stages) + [NoiseAdded(noiseSeed)]
    ensures w.simulations == old(w.simulations)
    ensures t.events == old(t.events) + [StageRun(NoiseAdded(noiseSeed))]
  {
    w.stages := w.stages + [NoiseAdded(noiseSeed)];
    t.Add(StageRun(NoiseAdded(noiseSeed)));
  }

  method PlaceOceansAtMapBorders(w: World, t: Trace)
    modifies w, t
    ensures w.stages == old(w.stages) + [OceansAtBorders]
    ensures w.simulations == old(w.simulations)
    ensures t.events == old(t.events) + [StageRun(OceansAtBorders)]
  {
    w.stages := w.stages + [OceansAtBorders];
    t.Add(StageRun(OceansAtBorders));
  }

  method InitializeOceanAndThresholds(w: World, t: Trace)
    modifies w, t
    ensures w.stages == old(w.stages) + [OceanAndThresholds]
    ensures w.simulations == old(w.simulations)
    ensures t.events == old(t.events) + [StageRun(OceanAndThresholds)]
  {
    w.stages := w.stages + [OceanAndThresholds];
    t.Add(StageRun(OceanAndThresholds));
  }

  // ---------------------------------------------------------------------
  // PlatesGeneration

  const DefaultSeaLevel := 0.65
  const DefaultErosionPeriod := 60
  const DefaultFoldingRatio := 0.02
  const DefaultAggrOverlapAbs := 1000000
  const DefaultAggrOverlapRel := 0.33
  const DefaultCycleCount := 2

  class PlatesGeneration {
    const name: string
    const width: nat
    const height: nat
    const seed: int
    const nPlates: int
    const oceanLevel: real
    const engine: Engine
    var steps: nat

    /** The engine's buffers have one entry per cell. */
    ghost predicate Valid()
      reads this
    {
      |engine.physics.heightmap| == width * height && |engine.physics.platesMap| == width * height
    }

    constructor (seed: int, name: string, width: nat, height: nat,
                 seaLevel: real, erosionPeriod: int, foldingRatio: real,
                 aggrOverlapAbs: int, aggrOverlapRel: real, cycleCount: int,
                 numPlates: int, physics: Physics)
      requires |physics.heightmap| == width * height && |physics.platesMap| == width * height
      ensures Valid() && fresh(engine)
      ensures this.name == name && this.width == width && this.height == height
      ensures this.seed == seed && this.nPlates == numPlates && this.oceanLevel == seaLevel
      ensures engine.params == EngineParams(seed, width, height, seaLevel, erosionPeriod, foldingRatio,
                                            aggrOverlapAbs, aggrOverlapRel, cycleCount, numPlates)
      ensures engine.physics == physics && engine.remaining == physics.steps
      ensures steps == 0
    {
      this.name := name;
      this.width := width;
      this.height := height;
      this.seed := seed;
      this.nPlates := numPlates;
      this.oceanLevel := seaLevel;
      this.engine := new Engine(EngineParams(seed, width, height, seaLevel, erosionPeriod, foldingRatio,
                                             aggrOverlapAbs, aggrOverlapRel, cycleCount, numPlates), physics);
      this.steps := 0;
    }

    /** step(): one engine step while the engine is not finished; once it is,
        the same answer every time and no further engine call. */
    method Step(t: Trace) returns (finished: bool, n: nat)
      modifies this, engine, t
      ensures finished == old(engine.IsFinished())
      ensures n == steps
      ensures !finished ==> steps == old(steps) + 1 && engine.remaining == old(engine.remaining) - 1
                            && t.events == old(t.events) + [EngineStep]
      ensures finished ==> steps == old(steps) && engine.remaining == old(engine.remaining)
                           && t.events == old(t.events)
    {
      if !engine.IsFinished() {
        engine.Step(t);
        steps := steps + 1;
        return false, steps;
      } else {
        return true, steps;
      }
    }

    /** world(): a new World with the engine's maps reshaped into grids. */
    method World(t: Trace) returns (w: World)
      requires Valid()
      modifies t
      ensures fresh(w)
      ensures w.name == name && w.width == width && w.height == height && w.seed == seed
      ensures w.nPlates == nPlates && w.oceanLevel == oceanLevel && w.step == "plates"
      ensures w.elevation == ArrayToMatrix(engine.physics.heightmap, width, height)
      ensures w.plates == ArrayToMatrix(engine.physics.platesMap, width, height)
      ensures w.stages == [] && w.simulations == []
      ensures t.events == old(t.events) + [StageRun(WorldBuilt)]
    {
      w := new World(name, width, height, seed, nPlates, oceanLevel, "plates");
      w.SetElevation(ArrayToMatrix(engine.physics.heightmap, width, height));
      w.SetPlates(ArrayToMatrix(engine.physics.platesMap, width, height));
      t.Add(StageRun(WorldBuilt));
    }
  }

  // ---------------------------------------------------------------------
  // The progress sink

  /** The status label, the Done button and the world slot of the progress
      dialogs (GenerationProgressDialog, OperationDialog). */
  class ProgressDialog {
    var status: string
    var doneEnabled: bool
    var world: Option<World>

    constructor ()
      ensures status == "...." && !doneEnabled && world == None
    {
      status := "....";
      doneEnabled := false;
      world := None;
    }

    method SetStatus(message: Message, t: Trace)
      modifies this, t
      ensures status == Text(message) && doneEnabled == old(doneEnabled) && world == old(world)
      ensures t.events == old(t.events) + [Status(message)]
    {
      status := Text(message);
      t.Add(Status(message));
    }

    method OnFinish(t: Trace)
      modifies this, t
      ensures doneEnabled && status == old(status) && world == old(world)
      ensures t.events == old(t.events) + [Finished]
    {
      doneEnabled := true;
      t.Add(Finished);
    }
  }

  // ---------------------------------------------------------------------
  // GenerationThread.run

  /** k engine steps, each followed by the status with the count it returned. */
  function StepRounds(s: nat, k: nat): (r: seq<Event>)
    ensures |r| == 2 * k
    decreases k
  {
    if k == 0 then [] else StepRounds(s, k - 1) + [EngineStep, Status(StepStatus(s + k))]
  }

  /** The finalization after the loop, each call after its status. */
  function Finalization(noiseSeed: int): seq<Event> {
    [Status(TerminatingStatus), StageRun(WorldBuilt)] + StageEvents(noiseSeed)
    + [Status(CompletedStatus), WorldAssigned, Finished]
  }

  /** The four in-place stages, each after its status. */
  function StageEvents(noiseSeed: int): seq<Event> {
    [ Status(CenterLandStatus), StageRun(LandCentered),
      Status(AddingNoiseStatus), StageRun(NoiseAdded(noiseSeed)),
      Status(ForcingOceansStatus), StageRun(OceansAtBorders),
      Status(FinalizationStatus), StageRun(OceanAndThresholds) ]
  }

  /** What run() records, starting from `s0` steps taken and an engine with
      `n` steps to go: n steps with their statuses, the status of the call
      that reported finished, then the finalization. */
  function GenerationTrace(s0: nat, n: nat, noiseSeed: int): seq<Event> {
    StepRounds(s0, n) + [Status(StepStatus(s0 + n))] + Finalization(noiseSeed)
  }

  class GenerationThread {
    const generation: PlatesGeneration
    const ui: ProgressDialog

    constructor (ui: ProgressDialog, seed: int, name: string, width: nat, height: nat,
                 numPlates: int, physics: Physics)
      requires |physics.heightmap| == width * height && |physics.platesMap| == width * height
      ensures this.ui == ui && fresh(generation) && fresh(generation.engine)
      ensures generation.Valid() && generation.steps == 0
      ensures generation.name == name && generation.width == width && generation.height == height
      ensures generation.seed == seed && generation.nPlates == numPlates
      ensures generation.oceanLevel == DefaultSeaLevel
      ensures generation.engine.params
                == EngineParams(seed, width, height, DefaultSeaLevel, DefaultErosionPeriod,
                                DefaultFoldingRatio, DefaultAggrOverlapAbs, DefaultAggrOverlapRel,
                                DefaultCycleCount, numPlates)
      ensures generation.engine.remaining == physics.steps
    {
      this.ui := ui;
      generation := new PlatesGeneration(seed, name, width, height, DefaultSeaLevel,
                                         DefaultErosionPeriod, DefaultFoldingRatio,
                                         DefaultAggrOverlapAbs, DefaultAggrOverlapRel,
                                         DefaultCycleCount, numPlates, physics);
    }

    /** One pass of the loop of run(): call step() and write the count it
        returned. */
    method StepAndReport(t: Trace) returns (finished: bool)
      modifies generation, generation.engine, ui, t
      ensures finished == old(generation.engine.IsFinished())
      ensures !finished ==> generation.steps == old(generation.steps) + 1
                            && generation.engine.remaining == old(generation.engine.remaining) - 1
                            && t.events == old(t.events) + [EngineStep, Status(StepStatus(generation.steps))]
      ensures finished ==> generation.steps == old(generation.steps)
                           && generation.engine.remaining == 0
                           && t.events == old(t.events) + [Status(StepStatus(generation.steps))]
      ensures ui.status == StepMessage(generation.steps)
      ensures ui.world == old(ui.world) && ui.doneEnabled == old(ui.doneEnabled)
    {
      var n;
      finished, n := generation.Step(t);
      ui.SetStatus(StepStatus(n), t);
    }

    /** The loop of run(): call step() until it reports finished, writing
        the returned count after every call. */
    method StepUntilFinished(t: Trace)
      requires generation.Valid()
      modifies generation, generation.engine, ui, t
      ensures t.events == old(t.events) + StepRounds(old(generation.steps), old(generation.engine.remaining))
                          + [Status(StepStatus(old(generation.steps) + old(generation.engine.remaining)))]
      ensures generation.steps == old(generation.steps) + old(generation.engine.remaining)
      ensures generation.engine.IsFinished()
      ensures ui.status == StepMessage(generation.steps)
      ensures ui.world == old(ui.world) && ui.doneEnabled == old(ui.doneEnabled)
    {
      ghost var s0, n0 := generation.steps, generation.engine.remaining;
      ghost var t0 := t.events;
      var finished := false;
      while !finished
        invariant generation.steps - s0 + generation.engine.remaining == n0
        invariant generation.steps >= s0
        invariant t.events == t0 + StepRounds(s0, generation.steps - s0)
                              + (if finished then [Status(StepStatus(generation.steps))] else [])
        invariant finished ==> generation.engine.remaining == 0
        invariant finished ==> ui.status == Text(StepStatus(generation.steps))
        invariant ui.world == old(ui.world) && ui.doneEnabled == old(ui.doneEnabled)
        decreases generation.engine.remaining, if finished then 0 else 1
      {
        finished := StepAndReport(t);
        if !finished {
          AppendAssoc(t0, StepRounds(s0, generation.steps - s0 - 1),
                      [EngineStep, Status(StepStatus(generation.steps))]);
        }
      }
    }

    /** run(): step until finished, then build and finalize the world, hand it
        to the dialog and signal completion. `noiseSeed` is the value of
        random.randint(0, 4096). */
    method Run(t: Trace, noiseSeed: int)
      requires generation.Valid()
      requires 0 <= noiseSeed <= 4096
      modifies generation, generation.engine, ui, t
      ensures t.events == old(t.events)
                + GenerationTrace(old(generation.steps), old(generation.engine.remaining), noiseSeed)
      ensures generation.steps == old(generation.steps) + old(generation.engine.remaining)
      ensures generation.engine.IsFinished()
      ensures ui.world.Some? && fresh(ui.world.value)
      ensures ui.world.value.stages == [LandCentered, NoiseAdded(noiseSeed), OceansAtBorders, OceanAndThresholds]
      ensures ui.world.value.HasOceanLayer() && ui.world.value.simulations == []
      ensures ui.world.value.name == generation.name && ui.world.value.width == generation.width
      ensures ui.world.value.height == generation.height && ui.world.value.seed == generation.seed
      ensures ui.status == CompletedMessage && ui.doneEnabled
    {
      StepUntilFinished(t);
      Finalize(t, noiseSeed);
    }

    /** The four in-place stages of run(), each after its status. */
    method ApplyStages(w: World, t: Trace, noiseSeed: int)
      modifies w, ui, t
      ensures t.events == old(t.events) + StageEvents(noiseSeed)
      ensures w.stages == old(w.stages) + [LandCentered, NoiseAdded(noiseSeed), OceansAtBorders, OceanAndThresholds]
      ensures w.simulations == old(w.simulations)
      ensures ui.world == old(ui.world) && ui.doneEnabled == old(ui.doneEnabled)
    {
      ui.SetStatus(CenterLandStatus, t);
      CenterLand(w, t);
      ui.SetStatus(AddingNoiseStatus, t);
      AddNoiseToElevation(w, noiseSeed, t);
      ui.SetStatus(ForcingOceansStatus, t);
      PlaceOceansAtMapBorders(w, t);
      ui.SetStatus(FinalizationStatus, t);
      InitializeOceanAndThresholds(w, t);
    }

    /** The part of run() after the loop: build the world, run the four
        stages, each after its status, hand the world to the dialog and
        signal completion. */
    method Finalize(t: Trace, noiseSeed: int)
      requires generation.Valid()
      modifies ui, t
      ensures t.events == old(t.events) + Finalization(noiseSeed)
      ensures ui.world.Some? && fresh(ui.world.value)
      ensures ui.world.value.stages == [LandCentered, NoiseAdded(noiseSeed), OceansAtBorders, OceanAndThresholds]
      ensures ui.world.value.HasOceanLayer() && ui.world.value.simulations == []
      ensures ui.world.value.name == generation.name && ui.world.value.width == generation.width
      ensures ui.world.value.height == generation.height && ui.world.value.seed == generation.seed
      ensures ui.status == CompletedMessage && ui.doneEnabled
    {
      ui.SetStatus(TerminatingStatus, t);
      var w := generation.World(t);
      ApplyStages(w, t, noiseSeed);
      ui.SetStatus(CompletedStatus, t);
      ui.world := Some(w);
      t.Add(WorldAssigned);
      ui.OnFinish(t);
    }
  }

  lemma AppendAssoc(a: seq<Event>, b: seq<Event>, c: seq<Event>)
    ensures a + b + c == a + (b + c)
  {
  }

  // ---------------------------------------------------------------------
  // Properties of the generation trace

  /** Round i of the loop is an engine step followed by the status with the
      count i + 1 that step returned. */
  lemma {:induction false} StepRoundsAt(s: nat, k: nat, i: nat)
    requires i < k
    ensures StepRounds(s, k)[2 * i] == EngineStep
    ensures StepRounds(s, k)[2 * i + 1] == Status(StepStatus(s + i + 1))
    decreases k
  {
    if i < k - 1 {
      StepRoundsAt(s, k - 1, i);
    }
  }

  lemma StepRoundsOnlySteps(s: nat, k: nat)
    ensures forall j :: 0 <= j < |StepRounds(s, k)| ==>
              StepRounds(s, k)[j] == EngineStep || StepRounds(s, k)[j].Status?
  {
    forall j | 0 <= j < |StepRounds(s, k)|
      ensures StepRounds(s, k)[j] == EngineStep || StepRounds(s, k)[j].Status?
    {
      StepRoundsAt(s, k, j / 2);
    }
  }

  lemma {:induction false} StepRoundsCount(s: nat, k: nat)
    ensures CountOf(EngineStep, StepRounds(s, k)) == k
    decreases k
  {
    if k > 0 {
      var round := [EngineStep, Status(StepStatus(s + k))];
      CountOfAppend(EngineStep, StepRounds(s, k - 1), round);
      StepRoundsCount(s, k - 1);
      CountOfOne(EngineStep, [], [Status(StepStatus(s + k))]);
      assert round == [] + [EngineStep] + [Status(StepStatus(s + k))];
    }
  }

  /** The engine is stepped exactly as many times as it had steps to go. */
  lemma EngineStepsInTrace(s0: nat, n: nat, noiseSeed: int)
    ensures CountOf(EngineStep, GenerationTrace(s0, n, noiseSeed)) == n
  {
    StepRoundsCount(s0, n);
    CountOfAbsent(EngineStep, [Status(StepStatus(s0 + n))]);
    CountOfAbsent(EngineStep, Finalization(noiseSeed));
    CountOfAppend(EngineStep, StepRounds(s0, n) + [Status(StepStatus(s0 + n))], Finalization(noiseSeed));
    CountOfAppend(EngineStep, StepRounds(s0, n), [Status(StepStatus(s0 + n))]);
  }

  /** The call that reports finished repeats the last count: with n > 0 the
      status of step s0 + n appears twice in a row. */
  lemma LastCountRepeated(s0: nat, n: nat, noiseSeed: int)
    requires n > 0
    ensures GenerationTrace(s0, n, noiseSeed)[2 * n - 1] == Status(StepStatus(s0 + n))
    ensures GenerationTrace(s0, n, noiseSeed)[2 * n] == Status(StepStatus(s0 + n))
  {
    StepRoundsAt(s0, n, n - 1);
  }

  /** Every world-building call comes after every engine step, and right
      after the status that announces it. */
  lemma StagesAfterLoopAndAnnounced(s0: nat, n: nat, noiseSeed: int)
    ensures var tr := GenerationTrace(s0, n, noiseSeed);
      forall i, j :: 0 <= i < |tr| && 0 <= j < |tr| && tr[i] == EngineStep && tr[j].StageRun? ==> i < j
    ensures var tr := GenerationTrace(s0, n, noiseSeed);
      forall j :: 0 <= j < |tr| && tr[j].StageRun? ==> 0 < j && tr[j - 1] == Status(StageMessage(tr[j].stage))
  {
    var tr := GenerationTrace(s0, n, noiseSeed);
    var loop := StepRounds(s0, n) + [Status(StepStatus(s0 + n))];
    assert tr == loop + Finalization(noiseSeed);
    StepRoundsOnlySteps(s0, n);
    assert forall j :: 0 <= j < |loop| ==> !loop[j].StageRun?;
  }

  /** on_finish is called exactly once, as the very last event, and the world
      is handed over right after the completed status and right before it. */
  lemma CompletionLast(s0: nat, n: nat, noiseSeed: int)
    ensures var tr := GenerationTrace(s0, n, noiseSeed);
      && CountOf(Finished, tr) == 1
      && CountOf(WorldAssigned, tr) == 1
      && tr[|tr| - 1] == Finished
      && tr[|tr| - 2] == WorldAssigned
      && tr[|tr| - 3] == Status(CompletedStatus)
  {
    var loop := StepRounds(s0, n) + [Status(StepStatus(s0 + n))];
    var f := Finalization(noiseSeed);
    StepRoundsOnlySteps(s0, n);
    assert Finished !in loop && WorldAssigned !in loop;
    CountOfAbsent(Finished, loop);
    CountOfAbsent(WorldAssigned, loop);
    CountOfAppend(Finished, loop, f);
    CountOfAppend(WorldAssigned, loop, f);
    FinalizationCounts(noiseSeed);
  }

  lemma {:induction false} CountOfAbsent(e: Event, s: seq<Event>)
    requires e !in s
    ensures CountOf(e, s) == 0
  {
    if s != [] {
      assert s[0] in s;
      assert forall j :: 0 <= j < |s[1..]| ==> s[1..][j] == s[j + 1];
      CountOfAbsent(e, s[1..]);
    }
  }

  lemma CountOfOne(e: Event, a: seq<Event>, b: seq<Event>)
    requires e !in a && e !in b
    ensures CountOf(e, a + [e] + b) == 1
  {
    CountOfAbsent(e, a);
    CountOfAbsent(e, b);
    CountOfAppend(e, a, [e]);
    CountOfAppend(e, a + [e], b);
  }

  lemma FinalizationCounts(noiseSeed: int)
    ensures CountOf(Finished, Finalization(noiseSeed)) == 1
    ensures CountOf(WorldAssigned, Finalization(noiseSeed)) == 1
  {
    var f := Finalization(noiseSeed);
    CountOfOne(Finished, f[..12], []);
    assert f == f[..12] + [Finished] + [];
    CountOfOne(WorldAssigned, f[..11], [Finished]);
    assert f == f[..11] + [WorldAssigned] + [Finished];
  }

  // ---------------------------------------------------------------------
  // SimulationOp

  /** simulation.execute(world, seed): external, in place. */
  method ExecuteSimulation(simulation: Simulation, w: World, seed: int, t: Trace)
    modifies w, t
    ensures w.simulations == old(w.simulations) + [(simulation, seed)]
    ensures w.stages == old(w.stages)
    ensures t.events == old(t.events) + [SimulationRun(simulation, seed)]
  {
    w.simulations := w.simulations + [(simulation, seed)];
    t.Add(SimulationRun(simulation, seed));
  }

  /** What execute records: started status, the simulation, done status,
      completion. */
  function OperationTrace(title: string, simulation: Simulation, seed: nat): seq<Event> {
    [Status(StartedStatus(title, seed)), SimulationRun(simulation, seed),
     Status(DoneStatus(title, seed)), Finished]
  }

  class SimulationOp {
    const title: string
    const simulation: Simulation

    constructor (title: string, simulation: Simulation)
      ensures this.title == title && this.simulation == simulation
    {
      this.title := title;
      this.simulation := simulation;
    }

    /** execute(world, ui); `seed` is the value of random.randint(0, 65536).
        The wrapper does not ask whether the simulation is applicable. */
    method Execute(world: World, ui: ProgressDialog, t: Trace, seed: int)
      requires 0 <= seed <= 65536
      modifies world, ui, t
      ensures t.events == old(t.events) + OperationTrace(title, simulation, seed)
      ensures world.simulations == old(world.simulations) + [(simulation, seed)]
      ensures world.stages == old(world.stages)
      ensures ui.status == DoneMessage(title, seed) && ui.doneEnabled && ui.world == old(ui.world)
    {
      ghost var t0 := t.events;
      ui.SetStatus(StartedStatus(title, seed), t);
      ExecuteSimulation(simulation, world, seed, t);
      assert t.events == t0 + OperationTrace(title, simulation, seed)[..2];
      ui.SetStatus(DoneStatus(title, seed), t);
      ui.OnFinish(t);
      assert t.events == t0 + OperationTrace(title, simulation, seed);
      assert ui.status == Text(DoneStatus(title, seed));
    }
  }

  /** The simulation runs once, between the two statuses, and completion is
      signalled once, last. */
  lemma OperationOrder(title: string, simulation: Simulation, seed: nat)
    ensures var tr := OperationTrace(title, simulation, seed);
      && CountOf(SimulationRun(simulation, seed), tr) == 1
      && CountOf(Finished, tr) == 1
      && tr[|tr| - 1] == Finished
      && SeedOf(Text(tr[0].message)) == Some(seed)
      && SeedOf(Text(tr[2].message)) == Some(seed)
  {
    var tr := OperationTrace(title, simulation, seed);
    CountOfOne(SimulationRun(simulation, seed), tr[..1], tr[2..]);
    assert tr == tr[..1] + [SimulationRun(simulation, seed)] + tr[2..];
    CountOfOne(Finished, tr[..3], []);
    assert tr == tr[..3] + [Finished] + [];
  }
}
