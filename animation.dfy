// Which ant, and which point of its path, each animation frame draws
// (the index arithmetic of animate).

module Animation {
  import opened Optional
  import RandomSearch
  import Colony

  /** The three ants in drawing order: Scout, Learner, Lost. */
  datatype Ant = Ant1 | Ant2 | Ant3

  /** The ant drawn in progress and the index of its current point. */
  datatype Cursor = Cursor(ant: Ant, idx: nat)

  /** What frame i draws: `completed` ants are drawn whole with a dot on their
      last point (`path[-1]`); `cursor`, if any, is the ant drawn up to and
      including point idx. */
  datatype Frame = Frame(completed: nat, cursor: Option<Cursor>)

  function PathLength(ant: Ant, len1: nat, len2: nat, len3: nat): nat
  {
    match ant
    case Ant1 => len1
    case Ant2 => len2
    case Ant3 => len3
  }

  /** The frame at which an ant starts to be drawn: ants are drawn one after
      another, each over as many frames as its path has points. */
  function FirstFrame(ant: Ant, len1: nat, len2: nat): nat
  {
    match ant
    case Ant1 => 0
    case Ant2 => len1
    case Ant3 => len1 + len2
  }

  /** `totalFrames = len1 + len2 + len3`: enough frames for every ant to be
      drawn to its last point, and no frame after the last ant's last point. */
  function TotalFrames(len1: nat, len2: nat, len3: nat): (t: nat)
    ensures forall ant :: FirstFrame(ant, len1, len2) + PathLength(ant, len1, len2, len3) <= t
    ensures t == FirstFrame(Ant3, len1, len2) + PathLength(Ant3, len1, len2, len3)
  {
    len1 + len2 + len3
  }

  /** animate(i): the first branch draws ant 1 at i; the second finishes ant 1
      and draws ant 2 at i - len1; the third finishes ants 1 and 2 and draws
      ant 3 at i - (len1 + len2) only when that index is below len3. */
  function Animate(i: nat, len1: nat, len2: nat, len3: nat): (f: Frame)
    ensures f.completed <= 2
    ensures f.cursor.Some? <==> i < TotalFrames(len1, len2, len3)
    ensures f.cursor.Some? ==>
      var c := f.cursor.value;
      FirstFrame(c.ant, len1, len2) + c.idx == i && c.idx < PathLength(c.ant, len1, len2, len3)
    ensures f.completed >= 1 <==> len1 <= i
    ensures f.completed == 2 <==> len1 + len2 <= i
  {
    if i < len1 then Frame(0, Some(Cursor(Ant1, i)))
    else if i < len1 + len2 then Frame(1, Some(Cursor(Ant2, i - len1)))
    else
      var idx := i - (len1 + len2);
      Frame(2, if idx < len3 then Some(Cursor(Ant3, idx)) else None)
  }

  /** Every point of every ant is drawn, by exactly the frame that the ant's
      first frame plus the point's index names: together with Animate's
      contract, frames 0 .. totalFrames - 1 and (ant, point) pairs correspond
      one to one. */
  lemma AnimateVisits(ant: Ant, k: nat, len1: nat, len2: nat, len3: nat)
    requires k < PathLength(ant, len1, len2, len3)
    ensures Animate(FirstFrame(ant, len1, len2) + k, len1, len2, len3).cursor == Some(Cursor(ant, k))
  {
  }

  /** Every list index a frame uses is in range: the cursor's point, and the
      last point of each completed ant (which must have one). */
  predicate InBounds(f: Frame, len1: nat, len2: nat, len3: nat)
  {
    && (f.completed >= 1 ==> len1 >= 1)
    && (f.completed >= 2 ==> len2 >= 1)
    && (f.cursor.Some? ==> f.cursor.value.idx < PathLength(f.cursor.value.ant, len1, len2, len3))
  }

  /** For the paths of any simulation, every frame 0 .. totalFrames - 1 draws an
      ant (in the third branch the guard `idx < len3` always holds) and indexes
      only points that exist. */
  lemma SimulationFramesInBounds(steps: int, stepSize: real, headings: RandomSearch.Headings,
                                 sensorFailure: bool, i: nat)
    ensures var sim := Colony.Simulate(steps, stepSize, headings, sensorFailure);
      var len1, len2, len3 := |sim.scout.xs|, |sim.learner.xs|, |sim.lost.xs|;
      var f := Animate(i, len1, len2, len3);
      && len1 >= 1 && len2 >= 1 && len3 >= 1
      && len1 == |sim.scout.ys| && len2 == |sim.learner.ys| && len3 == |sim.lost.ys|
      && InBounds(f, len1, len2, len3)
      && (i < TotalFrames(len1, len2, len3) ==> f.cursor.Some?)
  {
    Colony.SimulationShape(steps, stepSize, headings, sensorFailure);
  }
}
