// The three ants of runMultiAntSim and the pheromone memory they share.

module Colony {
  import opened Optional
  import opened Geometry
  import opened RandomSearch
  import opened Homing

  /** Points in a homing leg and in the published trail (`num_steps=50` and
      `np.linspace(0, food, 50)`). */
  const TrailSamples: nat := 50

  /** The Lost ant's simulated sensor fault, hard-coded on in the simulation. */
  const SensorFailure: bool := true

  /** The pheromone memory slot: empty, or one trail (an x list and a y list). */
  type Memory = Option<Path>

  /** What the Scout leaves behind: its exploring walk, the food it found at the
      walk's end, its full path (walk then homing leg) and the memory it wrote. */
  datatype ScoutRun = ScoutRun(walk: Path, food: Point, path: Path, memory: Memory)

  /** What a later ant produces: its path, and the position of the random source
      after it (the next draw not yet used). */
  datatype AntRun = AntRun(path: Path, next: nat)

  /** The outcome of one simulation: the three paths, the food point and the
      final memory. */
  datatype Simulation = Simulation(scout: Path, learner: Path, lost: Path, food: Point, memory: Memory)

  /** The trail published to memory: the 50-point interpolation from the nest
      to the food. */
  function Trail(food: Point): (t: Path)
    ensures t.Aligned() && t.Length() == TrailSamples
    ensures t.At(0) == Origin && t.Last() == food
  {
    Path(Linspace(0.0, food.x, TrailSamples), Linspace(0.0, food.y, TrailSamples))
  }

  /** Ant 1: explore with the first draws, home from the food to the nest, and
      publish the nest-to-food trail. */
  function Scout(steps: int, stepSize: real, headings: Headings): (s: ScoutRun)
    ensures s.walk == Walk(Iterations(steps), stepSize, headings, 0)
    ensures s.food == s.walk.Last()
    ensures s.path == Concat(s.walk, GenerateHoming(s.food, Origin, TrailSamples))
    ensures s.path.Aligned() && s.path.Length() == s.walk.Length() + TrailSamples
    ensures s.memory == Some(Trail(s.food))
  {
    var walk := Walk(Iterations(steps), stepSize, headings, 0);
    var food := walk.Last();
    var home := GenerateHoming(food, Origin, TrailSamples);
    ScoutRun(walk, food, Concat(walk, home), Some(Trail(food)))
  }

  /** Ant 2: follow the trail verbatim when memory holds one; otherwise a bare
      random walk, with no homing leg, from draw `next` on. */
  function Learner(memory: Memory, steps: int, stepSize: real, headings: Headings, next: nat): (r: AntRun)
    ensures memory.Some? ==> r.path == memory.value && r.next == next
    ensures memory.None? ==>
      && r.path.Aligned() && r.path.Length() == Iterations(steps) + 1
      && r.next == next + Iterations(steps)
  {
    match memory
    case Some(trail) => AntRun(trail, next)
    case None =>
      var n := Iterations(steps);
      AntRun(Walk(n, stepSize, headings, next), next + n)
  }

  /** Ant 3: use the trail only when memory holds one and the sensor has not
      failed; otherwise a fresh walk from draw `next` on and a homing leg. */
  function Lost(memory: Memory, sensorFailure: bool, steps: int, stepSize: real, headings: Headings, next: nat): (r: AntRun)
    ensures memory.Some? && !sensorFailure ==> r.path == memory.value && r.next == next
    ensures memory.None? || sensorFailure ==>
      && r.path.Aligned() && r.path.Length() == Iterations(steps) + 1 + TrailSamples
      && r.next == next + Iterations(steps)
  {
    if memory.Some? && !sensorFailure then AntRun(memory.value, next)
    else
      var n := Iterations(steps);
      var walk := Walk(n, stepSize, headings, next);
      AntRun(Concat(walk, GenerateHoming(walk.Last(), Origin, TrailSamples)), next + n)
  }

  /** The three ants in order, Scout then Learner then Lost, sharing one memory
      slot and one random source. */
  function Simulate(steps: int, stepSize: real, headings: Headings, sensorFailure: bool): (sim: Simulation)
    ensures sim.scout.Aligned() && sim.scout.Length() == Iterations(steps) + 1 + TrailSamples
    ensures sim.memory == Some(Trail(sim.food))
    ensures sim.learner == Trail(sim.food)
    ensures !sensorFailure ==> sim.lost == sim.learner
  {
    var scout := Scout(steps, stepSize, headings);
    var learner := Learner(scout.memory, steps, stepSize, headings, Iterations(steps));
    var lost := Lost(scout.memory, sensorFailure, steps, stepSize, headings, learner.next);
    Simulation(scout.path, learner.path, lost.path, scout.food, scout.memory)
  }

  /** runMultiAntSim, with its sensor fault switched on. */
  function RunMultiAntSim(steps: int, stepSize: real, headings: Headings): (sim: Simulation)
    ensures sim.lost.Aligned() && sim.lost.Length() == Iterations(steps) + 1 + TrailSamples
    ensures sim.lost.At(0) == Origin && sim.lost.Last() == Origin
    ensures sim.learner == Trail(sim.food)
  {
    SimulationShape(steps, stepSize, headings, SensorFailure);
    Simulate(steps, stepSize, headings, SensorFailure)
  }

  /** A walk followed by a 50-point homing leg to the nest: steps + 1 + 50
      points, from the nest back to the nest, with the walk's end point kept
      twice at the join. */
  lemma {:induction false} WalkHomeShape(n: nat, stepSize: real, headings: Headings, from: nat)
    ensures var walk := Walk(n, stepSize, headings, from);
      var p := Concat(walk, GenerateHoming(walk.Last(), Origin, TrailSamples));
      && p.Aligned() && p.Length() == n + 1 + TrailSamples
      && p.At(0) == Origin
      && p.At(n) == walk.Last() == Displacement(n, stepSize, headings, from)
      && p.At(n + 1) == walk.Last()
      && p.Last() == Origin
  {
    var walk := Walk(n, stepSize, headings, from);
    var home := GenerateHoming(walk.Last(), Origin, TrailSamples);
    var p := Concat(walk, home);
    WalkShape(n, stepSize, headings, from);
    WalkEnd(n, stepSize, headings, from);
    HomingEnds(walk.Last(), Origin, TrailSamples);
    assert p.At(n + 1) == home.At(0);
    assert p.Last() == p.At(n + 1 + (TrailSamples - 1)) == home.Last();
  }

  /** The Scout explores with draws 0 .. steps - 1, finds food at the walk's end
      (the sum of its displacements), comes home along a 50-point leg, and leaves
      memory holding the 50-point nest-to-food trail. */
  lemma ScoutShape(steps: int, stepSize: real, headings: Headings)
    ensures var s := Scout(steps, stepSize, headings);
      var n := Iterations(steps);
      && s.walk == Walk(n, stepSize, headings, 0)
      && s.path == Concat(Walk(n, stepSize, headings, 0), GenerateHoming(s.food, Origin, TrailSamples))
      && s.food == Displacement(n, stepSize, headings, 0)
      && s.path.Aligned() && s.path.Length() == n + 1 + TrailSamples
      && s.path.At(0) == Origin
      && s.path.At(n) == s.food && s.path.At(n + 1) == s.food
      && s.path.Last() == Origin
      && s.memory.Some?
      && s.memory.value.Aligned() && s.memory.value.Length() == TrailSamples
      && s.memory.value.At(0) == Origin && s.memory.value.Last() == s.food
  {
    var n := Iterations(steps);
    WalkHomeShape(n, stepSize, headings, 0);
  }

  /** With a trail in memory the Learner takes it verbatim and draws nothing;
      with none it walks `steps` fresh draws and stops where the walk ends. */
  lemma LearnerBranches(memory: Memory, steps: int, stepSize: real, headings: Headings, next: nat)
    ensures var r := Learner(memory, steps, stepSize, headings, next);
      var n := Iterations(steps);
      && (memory.Some? ==> r.path == memory.value && r.next == next)
      && (memory.None? ==>
            && r.path == Walk(n, stepSize, headings, next)
            && r.path.Aligned() && r.path.Length() == n + 1
            && r.path.At(0) == Origin
            && r.path.Last() == Displacement(n, stepSize, headings, next)
            && r.next == next + n)
  {
    if memory.None? {
      WalkShape(Iterations(steps), stepSize, headings, next);
      WalkEnd(Iterations(steps), stepSize, headings, next);
    }
  }

  /** A failed sensor always sends the Lost ant on a fresh walk from draw `next`
      and home, whatever memory holds: steps + 1 + 50 points ending at the nest. */
  lemma LostFallsBack(memory: Memory, steps: int, stepSize: real, headings: Headings, next: nat)
    ensures var r := Lost(memory, true, steps, stepSize, headings, next);
      var n := Iterations(steps);
      var walk := Walk(n, stepSize, headings, next);
      && r.path == Concat(walk, GenerateHoming(walk.Last(), Origin, TrailSamples))
      && r == Lost(None, true, steps, stepSize, headings, next)
      && r == Lost(None, false, steps, stepSize, headings, next)
      && r.path.Aligned() && r.path.Length() == n + 1 + TrailSamples
      && r.path.At(0) == Origin && r.path.Last() == Origin
      && r.path.At(n) == Displacement(n, stepSize, headings, next)
      && r.next == next + n
  {
    WalkHomeShape(Iterations(steps), stepSize, headings, next);
  }

  /** With a trail in memory and a working sensor, the Lost ant takes exactly
      the Learner's path. */
  lemma LostTrustsMemory(memory: Memory, steps: int, stepSize: real, headings: Headings, next: nat)
    requires memory.Some?
    ensures Lost(memory, false, steps, stepSize, headings, next)
         == Learner(memory, steps, stepSize, headings, next)
  {
  }

  /** One simulation: the Scout's path has steps + 1 + 50 points; the Learner
      follows the published trail (50 points from the nest to the food) without
      drawing; memory still holds that trail afterwards; with a failed sensor the
      Lost ant walks on draws steps .. 2 * steps - 1, disjoint from the Scout's,
      and comes home, and with a working sensor it follows the Learner. */
  lemma SimulationShape(steps: int, stepSize: real, headings: Headings, sensorFailure: bool)
    ensures var sim := Simulate(steps, stepSize, headings, sensorFailure);
      var n := Iterations(steps);
      && sim.scout == Concat(Walk(n, stepSize, headings, 0), GenerateHoming(sim.food, Origin, TrailSamples))
      && sim.scout.Aligned() && sim.scout.Length() == n + 1 + TrailSamples
      && sim.scout.Last() == Origin
      && sim.memory == Some(Trail(sim.food))
      && sim.learner == Trail(sim.food)
      && sim.learner.Aligned() && sim.learner.Length() == TrailSamples
      && sim.learner.At(0) == Origin && sim.learner.Last() == sim.food
      && sim.food == Displacement(n, stepSize, headings, 0)
      && (sensorFailure ==>
            var walk := Walk(n, stepSize, headings, n);
            && sim.lost == Concat(walk, GenerateHoming(walk.Last(), Origin, TrailSamples))
            && sim.lost.Aligned() && sim.lost.Length() == n + 1 + TrailSamples
            && sim.lost.At(0) == Origin && sim.lost.Last() == Origin)
      && (!sensorFailure ==> sim.lost == sim.learner)
  {
    var n := Iterations(steps);
    ScoutShape(steps, stepSize, headings);
    var scout := Scout(steps, stepSize, headings);
    LearnerBranches(scout.memory, steps, stepSize, headings, n);
    if sensorFailure {
      LostFallsBack(scout.memory, steps, stepSize, headings, n);
    }
  }

  /** The default run (150 steps of length 1.0): the Scout's path has 201
      points, the Learner's 50 and the Lost ant's 201. */
  lemma DefaultRunLengths(headings: Headings)
    ensures var sim := RunMultiAntSim(150, 1.0, headings);
      sim.scout.Length() == 201 && sim.learner.Length() == 50 && sim.lost.Length() == 201
  {
    SimulationShape(150, 1.0, headings, SensorFailure);
  }
}
