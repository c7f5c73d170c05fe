// The straight-line homing path (generate_homing) and the linear interpolation
// it is built from (numpy's linspace, over exact reals).

module Homing {
  import opened Geometry

  /** Sample i of `linspace(start, stop, num)`: start plus i steps of
      (stop - start) / (num - 1); a single sample is start itself. */
  function Sample(start: real, stop: real, num: nat, i: nat): real
    requires i < num
  {
    if num == 1 then start else start + (i as real) * ((stop - start) / ((num - 1) as real))
  }

  /** `linspace(start, stop, num)`: num evenly spaced values from start to stop,
      both included; none when num is 0. */
  function Linspace(start: real, stop: real, num: nat): (r: seq<real>)
    ensures |r| == num
    ensures num >= 1 ==> r[0] == start
    ensures num >= 2 ==> r[num - 1] == stop
    ensures forall i :: 0 <= i < num - 1 ==> r[i + 1] - r[i] == (stop - start) / ((num - 1) as real)
  {
    seq(num, i requires 0 <= i < num => Sample(start, stop, num, i))
  }

  /** A single sample is start, and no sample at all is the empty list. */
  lemma LinspaceDegenerate(start: real, stop: real)
    ensures Linspace(start, stop, 1) == [start]
    ensures Linspace(start, stop, 0) == []
  {
  }

  /** Sample i lies between start and stop. */
  lemma SampleBetween(start: real, stop: real, num: nat, i: nat)
    requires i < num
    ensures var v := Sample(start, stop, num, i);
      (start <= stop ==> start <= v <= stop) && (stop <= start ==> stop <= v <= start)
  {
    if num >= 2 {
      var d := (num - 1) as real;
      var s := (stop - start) / d;
      var t := i as real;
      assert 0.0 <= t <= d;
      assert d * s == stop - start;
      if start <= stop {
        assert 0.0 <= s;
        assert 0.0 <= t * s <= d * s;
      } else {
        assert s <= 0.0;
        assert d * s <= t * s <= 0.0;
      }
    }
  }

  /** Every value lies between start and stop. */
  lemma LinspaceBetween(start: real, stop: real, num: nat, i: nat)
    requires i < num
    ensures var v := Linspace(start, stop, num)[i];
      (start <= stop ==> start <= v <= stop) && (stop <= start ==> stop <= v <= start)
  {
    assert Linspace(start, stop, num)[i] == Sample(start, stop, num, i);
    SampleBetween(start, stop, num, i);
  }

  /** generate_homing: `num_steps` points interpolated from start to end, as an
      x list and a y list. */
  function GenerateHoming(start: Point, end: Point, numSteps: nat): (h: Path)
    ensures h.Aligned() && h.Length() == numSteps
  {
    Path(Linspace(start.x, end.x, numSteps), Linspace(start.y, end.y, numSteps))
  }

  /** The homing path starts at start and ends at end; with one point it is start. */
  lemma HomingEnds(start: Point, end: Point, numSteps: nat)
    ensures numSteps >= 1 ==> GenerateHoming(start, end, numSteps).At(0) == start
    ensures numSteps >= 2 ==> GenerateHoming(start, end, numSteps).Last() == end
    ensures numSteps == 1 ==> GenerateHoming(start, end, numSteps) == Path([start.x], [start.y])
  {
    if numSteps == 1 {
      LinspaceDegenerate(start.x, end.x);
      LinspaceDegenerate(start.y, end.y);
    }
  }

  /** Every point of the homing path lies on the straight line through start and
      end (the cross product of their offsets from start vanishes). */
  lemma HomingCollinear(start: Point, end: Point, numSteps: nat, i: nat)
    requires i < numSteps
    ensures var p := GenerateHoming(start, end, numSteps).At(i);
      (p.x - start.x) * (end.y - start.y) == (p.y - start.y) * (end.x - start.x)
  {
  }

  /** Consecutive points of the homing path are one constant displacement apart. */
  lemma HomingSpacing(start: Point, end: Point, numSteps: nat, i: nat)
    requires i + 1 < numSteps
    ensures var h := GenerateHoming(start, end, numSteps);
      h.At(i + 1) == Add(h.At(i), Point((end.x - start.x) / ((numSteps - 1) as real),
                                        (end.y - start.y) / ((numSteps - 1) as real)))
  {
  }
}
