// The random walk of an exploring ant (generate_random_search).

module RandomSearch {
  import opened Geometry

  /** The process-wide random source as the walks consume it: draw k is the
      heading (cos a, sin a) of the k-th angle a drawn uniformly from [0, 2 pi). */
  type Headings = nat -> Point

  /** Number of iterations of `for _ in range(steps)`: none when steps <= 0. */
  function Iterations(steps: int): nat
  {
    if steps < 0 then 0 else steps
  }

  /** The displacement made with draw k: stepSize along its heading. */
  function Step(stepSize: real, headings: Headings, k: nat): Point
  {
    Scale(stepSize, headings(k))
  }

  /** The walk of n steps that uses the draws from, from + 1, ..., from + n - 1:
      the origin, then each point the previous one plus that step's displacement. */
  function Walk(n: nat, stepSize: real, headings: Headings, from: nat): (w: Path)
    ensures w.Aligned() && w.Length() == n + 1
  {
    if n == 0 then Path([0.0], [0.0])
    else
      var prev := Walk(n - 1, stepSize, headings, from);
      var cur := Add(prev.Last(), Step(stepSize, headings, from + n - 1));
      Path(prev.xs + [cur.x], prev.ys + [cur.y])
  }

  /** Path integration: the sum of the first n displacements drawn from `from` on. */
  function Displacement(n: nat, stepSize: real, headings: Headings, from: nat): Point
  {
    if n == 0 then Origin
    else Add(Displacement(n - 1, stepSize, headings, from), Step(stepSize, headings, from + n - 1))
  }

  /** A shorter walk from the same draws is a prefix of a longer one. */
  lemma {:induction false} WalkPrefix(m: nat, n: nat, stepSize: real, headings: Headings, from: nat)
    requires m <= n
    ensures Walk(m, stepSize, headings, from).xs == Walk(n, stepSize, headings, from).xs[..m + 1]
    ensures Walk(m, stepSize, headings, from).ys == Walk(n, stepSize, headings, from).ys[..m + 1]
  {
    if m < n {
      WalkPrefix(m, n - 1, stepSize, headings, from);
      var longer := Walk(n, stepSize, headings, from);
      var shorter := Walk(n - 1, stepSize, headings, from);
      assert longer.xs[..n] == shorter.xs;
      assert longer.ys[..n] == shorter.ys;
      assert longer.xs[..m + 1] == longer.xs[..n][..m + 1];
      assert longer.ys[..m + 1] == longer.ys[..n][..m + 1];
    }
  }

  /** The end point of a walk is the sum of its displacements. */
  lemma {:induction false} WalkEnd(n: nat, stepSize: real, headings: Headings, from: nat)
    ensures Walk(n, stepSize, headings, from).Last() == Displacement(n, stepSize, headings, from)
  {
    if n > 0 {
      WalkEnd(n - 1, stepSize, headings, from);
    }
  }

  /** Every point k of a walk is the sum of its first k displacements. */
  lemma {:induction false} WalkIntegrates(n: nat, stepSize: real, headings: Headings, from: nat, k: nat)
    requires k <= n
    ensures Walk(n, stepSize, headings, from).At(k) == Displacement(k, stepSize, headings, from)
  {
    WalkPrefix(k, n, stepSize, headings, from);
    WalkEnd(k, stepSize, headings, from);
  }

  /** The shape of a walk: n + 1 points in both lists, starting at the origin, and
      each point the previous one plus the displacement of the draw used for it. */
  lemma {:induction false} WalkShape(n: nat, stepSize: real, headings: Headings, from: nat)
    ensures var w := Walk(n, stepSize, headings, from);
      && |w.xs| == n + 1 && |w.ys| == n + 1
      && w.At(0) == Origin
      && forall k :: 0 <= k < n ==> w.At(k + 1) == Add(w.At(k), Step(stepSize, headings, from + k))
  {
    var w := Walk(n, stepSize, headings, from);
    WalkIntegrates(n, stepSize, headings, from, 0);
    forall k | 0 <= k < n
      ensures w.At(k + 1) == Add(w.At(k), Step(stepSize, headings, from + k))
    {
      WalkIntegrates(n, stepSize, headings, from, k);
      WalkIntegrates(n, stepSize, headings, from, k + 1);
    }
  }

  /** A step along a heading on the unit circle has squared length stepSize * stepSize. */
  lemma UnitHeadingStepLength(stepSize: real, headings: Headings, k: nat)
    requires headings(k).x * headings(k).x + headings(k).y * headings(k).y == 1.0
    ensures var d := Step(stepSize, headings, k);
      d.x * d.x + d.y * d.y == stepSize * stepSize
  {
  }

  /** generate_random_search: walk `steps` times from the origin, one draw per
      step starting at draw `from`, and return both coordinate lists and the end
      point (the discovered location). */
  method GenerateRandomSearch(steps: int, stepSize: real, headings: Headings, from: nat)
    returns (walkX: seq<real>, walkY: seq<real>, curX: real, curY: real)
    ensures Path(walkX, walkY) == Walk(Iterations(steps), stepSize, headings, from)
    ensures Point(curX, curY) == Path(walkX, walkY).Last()
    ensures Point(curX, curY) == Displacement(Iterations(steps), stepSize, headings, from)
    ensures steps <= 0 ==> walkX == [0.0] && walkY == [0.0] && curX == 0.0 && curY == 0.0
    ensures steps >= 0 ==> |walkX| == steps + 1 && |walkY| == steps + 1
  {
    walkX, walkY := [0.0], [0.0];
    curX, curY := 0.0, 0.0;
    var n := Iterations(steps);
    for k := 0 to n
      invariant Path(walkX, walkY) == Walk(k, stepSize, headings, from)
      invariant Point(curX, curY) == Path(walkX, walkY).Last()
    {
      var heading := headings(from + k);
      curX := curX + stepSize * heading.x;
      curY := curY + stepSize * heading.y;
      walkX := walkX + [curX];
      walkY := walkY + [curY];
      assert Point(curX, curY) == Add(Walk(k, stepSize, headings, from).Last(), Step(stepSize, headings, from + k));
    }
    WalkEnd(n, stepSize, headings, from);
    WalkShape(n, stepSize, headings, from);
  }
}
