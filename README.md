# One-shot learning ant colony: a Dafny model

This project models the computational core of `runMultiAntSim` in
`oneshotlearning.py`, a simulation of three ants that share what they learn
through a pheromone memory:

- **Ant 1, the Scout**, random-walks `steps` steps from the nest; the point
  where it stops is the food. It comes home along a straight 50-point homing
  leg. Then it publishes a 50-point nest-to-food trail to the memory slot.
- **Ant 2, the Learner**, reads the memory. If a trail is there, it follows
  the trail verbatim (one-shot learning). Otherwise it does a bare random walk.
- **Ant 3, the Lost ant**, uses the trail only if memory holds one and its
  sensor has not failed. Otherwise it does a fresh random walk plus a homing
  leg. The simulation hard-codes the sensor failure to on.
- **The animation** draws the three paths one after another. Frame `i` is
  mapped to an ant and to a point of that ant's path.

Modules:

- `Geometry` (geometry.dfy): points and paths. A path is kept as the source
  keeps it, as an x list and a y list; `Aligned()` says both lists have the
  same length. `Concat` is the list concatenation the source uses. `Optional`
  holds the `Option` type used for the memory slot.
- `RandomSearch` (random_search.dfy): `generate_random_search` as a method with
  a loop (`GenerateRandomSearch`). It is specified by the function `Walk` and
  the path-integration sum `Displacement`. The random angles and the trig calls
  are replaced by an injected stream of headings, `Headings = nat -> Point`:
  draw k is (cos a, sin a) for the k-th angle a. Each walk consumes one draw
  per step, starting at a given position of the stream. So the Scout, Learner
  and Lost walks use the draws of one process-wide source in the order the
  program consumes them.
- `Homing` (homing.dfy): numpy's `linspace` over exact reals (`Linspace`) and
  `generate_homing` (`GenerateHoming`).
- `Colony` (colony.dfy): the memory slot (`Memory = Option<Path>`), the three
  ants (`Scout`, `Learner`, `Lost`), and one whole run (`Simulate`, with
  `sensorFailure` as a parameter). `RunMultiAntSim` fixes `sensorFailure` to
  `true`, as the program does.
- `Animation` (animation.dfy): the index logic of `animate` (`Animate`).

Edge cases, as the code behaves:

- `linspace` with one sample returns `[start]` (`LinspaceDegenerate`,
  `HomingEnds`), and with none the empty list.
- A zero or negative step count is not rejected: `range(steps)` runs zero
  times, so the walk is the origin alone (`GenerateRandomSearch`).

## Model

| member | source | states |
|---|---|---|
| RandomSearch.GenerateRandomSearch | oneshotlearning.py:10-19 | the loop's lists are exactly the walk of `steps` draws, with `steps + 1` points each for `steps >= 0`; for `steps <= 0` they are the origin alone and the end point is (0, 0); the returned `(curX, curY)` is the walk's last point and the sum of all displacements |
| RandomSearch.Walk | oneshotlearning.py:11-18 | a walk of n steps has n + 1 points, in x and y lists of equal length |
| RandomSearch.WalkShape | oneshotlearning.py:11-18 | the walk has steps + 1 points in each list, starts at (0, 0), and each point is the previous one plus `stepSize` times that step's heading |
| RandomSearch.WalkPrefix | oneshotlearning.py:13-18 | appending in the loop only extends the lists: a shorter walk on the same draws is a prefix of a longer one |
| RandomSearch.WalkEnd | oneshotlearning.py:13-19 | the returned end point (the food) equals the sum of the displacements (path integration) |
| RandomSearch.WalkIntegrates | oneshotlearning.py:13-18 | every point k of the walk equals the sum of its first k displacements |
| RandomSearch.UnitHeadingStepLength | oneshotlearning.py:14-16 | a step along a unit heading such as (cos a, sin a) has squared length stepSize² |
| Homing.Linspace | oneshotlearning.py:22-23 | `linspace` returns exactly `num` values; the first is start, the last (for at least two) is stop, and consecutive values are (stop - start) / (num - 1) apart |
| Homing.LinspaceDegenerate | oneshotlearning.py:22-23 | one sample gives [start]; zero samples give the empty list |
| Homing.SampleBetween | oneshotlearning.py:22-23 | start plus i of num - 1 equal steps towards stop lies between start and stop |
| Homing.LinspaceBetween | oneshotlearning.py:22-23 | every value lies between start and stop |
| Homing.GenerateHoming | oneshotlearning.py:21-24 | the homing path has exactly `num_steps` points in both the x and the y list |
| Homing.HomingEnds | oneshotlearning.py:21-24 | for `num_steps >= 2` the homing path starts at `start` and ends at `end`; with one point it is `start` |
| Homing.HomingCollinear | oneshotlearning.py:21-24 | every homing point lies on the straight line through start and end |
| Homing.HomingSpacing | oneshotlearning.py:21-24 | consecutive homing points are one constant displacement apart |
| Geometry.Concat | oneshotlearning.py:37-38 | concatenating a walk and a homing leg keeps every point of both, in order, the join included, and keeps the x and y lists aligned |
| Colony.WalkHomeShape | oneshotlearning.py:56-59 | a walk plus a homing leg has steps + 1 + 50 points, starts and ends at the nest, and keeps the walk's end point twice at the join |
| Colony.Trail | oneshotlearning.py:31-34 | the published trail has 50 points in both lists, from the nest (0, 0) to the food |
| Colony.Scout | oneshotlearning.py:27-38 | the Scout walks on the draws from 0, the food is the walk's end, its path is the walk followed by the 50-point homing leg from the food to the nest, and it leaves memory holding the trail to the food (full shape in `ScoutShape`) |
| Colony.ScoutShape | oneshotlearning.py:27-38 | the Scout walks on the first draws and finds food at the walk's end; its path is that walk followed by the homing leg from the food, has steps + 1 + 50 points, keeps the food point twice at the join and ends at the nest; afterwards memory holds the 50-point nest-to-food trail |
| Colony.Learner | oneshotlearning.py:40-46 | with a trail in memory the Learner's path is that trail and it draws nothing; without one it draws `steps` times and its path has steps + 1 points (the walk itself in `LearnerBranches`) |
| Colony.LearnerBranches | oneshotlearning.py:40-46 | with a trail in memory the Learner's path is that trail verbatim and it draws nothing; without one its path is a bare walk of steps + 1 points, with no homing leg, on `steps` fresh draws |
| Colony.Lost | oneshotlearning.py:49-59 | with a trail in memory and a working sensor the Lost ant's path is the trail; otherwise it draws `steps` times and its path has steps + 1 + 50 points (the walk plus homing leg in `LostFallsBack`) |
| Colony.LostFallsBack | oneshotlearning.py:49-59 | with the sensor failed the Lost ant's path does not depend on memory: it is the walk on the draws from `next` followed by the homing leg from its end, steps + 1 + 50 points, from the nest back to the nest |
| Colony.LostTrustsMemory | oneshotlearning.py:51-53 | with a trail in memory and a working sensor the Lost ant's path equals the Learner's |
| Colony.Simulate | oneshotlearning.py:8-59 | in a run the Scout's path has steps + 1 + 50 points, memory ends up holding the trail to the food, the Learner's path is that trail, and with a working sensor the Lost ant's path is the Learner's (the rest in `SimulationShape`) |
| Colony.SimulationShape | oneshotlearning.py:8-59 | in a run, the Scout's path is its walk on draws 0 .. steps - 1 followed by its homing leg; memory ends up holding the trail and the Learner follows it (50 points, nest to food); with the sensor failed the Lost ant walks on draws disjoint from the Scout's and comes home (steps + 1 + 50 points); with a working sensor it follows the Learner |
| Colony.RunMultiAntSim | oneshotlearning.py:5-59 | with `sensor_failure = True` (line 49) the Lost ant's path has steps + 1 + 50 points from the nest back to the nest, and the Learner follows the trail |
| Colony.DefaultRunLengths | oneshotlearning.py:5-59 | with the default 150 steps, the paths have 201, 50 and 201 points |
| Animation.TotalFrames | oneshotlearning.py:61-64 | `totalFrames` covers the last point of every ant and ends right after the Lost ant's last point |
| Animation.Animate | oneshotlearning.py:99-121 | frame i draws an ant exactly when i < len1 + len2 + len3; the ant's point index is in range and equals i minus that ant's first frame; an ant is drawn completed exactly when all its frames are before i |
| Animation.AnimateVisits | oneshotlearning.py:99-121 | every point of every ant is drawn by the frame at the ant's first frame plus the point index, so frames and (ant, point) pairs correspond one to one |
| Animation.SimulationFramesInBounds | oneshotlearning.py:61-121 | for the paths of any run, every frame below `totalFrames` draws an ant, the guard `idx < len3` holds in the third branch, and every list index used (the current point and `[-1]` of the completed paths) exists |

## Left out

- Plotting, axis limits, the legend, `init`, the `set_data` calls,
  `FuncAnimation` and the GIF export (oneshotlearning.py:66-131). They are
  presentation and file output. Only the indices that `animate` uses are
  modelled.
- The `print` status lines. They are console output only.
- `np.random.uniform`, `np.cos` and `np.sin`. They become the injected
  `Headings` stream. `UnitHeadingStepLength` covers headings on the unit
  circle, but the model does not require every heading to be on it.
- Floating-point rounding and numpy's exact `linspace` algorithm. All
  arithmetic is on exact reals. Over floats the same holds only up to
  rounding, except that numpy sets the last `linspace` value to `stop`
  exactly.
- The Scout's homing leg being the exact reverse of the published trail. It
  holds over reals, but not bit for bit over floats, so it is not claimed.
- A negative `num_steps` for `linspace`, which numpy rejects. The program
  only calls it with 50, so `Linspace` takes a natural number.
