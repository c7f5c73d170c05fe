// Points and trajectories of the one-shot learning colony simulation.

/** Optional values: the pheromone-memory slot and the ant an animation frame draws. */
module Optional {
  datatype Option<+T> = None | Some(value: T)
}

module Geometry {

  /** A position in the plane; the nest is the origin. */
  datatype Point = Point(x: real, y: real)

  const Origin: Point := Point(0.0, 0.0)

  function Add(p: Point, q: Point): Point
  {
    Point(p.x + q.x, p.y + q.y)
  }

  function Scale(k: real, p: Point): Point
  {
    Point(k * p.x, k * p.y)
  }

  /** A trajectory as the simulation keeps it: one list of x coordinates and one
      of y coordinates, in the order the ant visits the points. */
  datatype Path = Path(xs: seq<real>, ys: seq<real>) {

    /** Both coordinate lists have the same length. */
    predicate Aligned()
    {
      |xs| == |ys|
    }

    function Length(): nat
    {
      |xs|
    }

    function At(i: nat): Point
      requires Aligned() && i < Length()
    {
      Point(xs[i], ys[i])
    }

    function Last(): Point
      requires Aligned() && 0 < Length()
    {
      At(Length() - 1)
    }
  }

  /** List concatenation of two trajectories, coordinate list by coordinate list
      (`walkX + homeX`, `walkY + homeY`). The join point is kept twice when the
      first trajectory ends where the second begins. */
  function Concat(p: Path, q: Path): (r: Path)
    ensures |r.xs| == |p.xs| + |q.xs| && |r.ys| == |p.ys| + |q.ys|
    ensures p.Aligned() && q.Aligned() ==>
      && r.Aligned()
      && (forall i :: 0 <= i < p.Length() ==> r.At(i) == p.At(i))
      && (forall j :: 0 <= j < q.Length() ==> r.At(p.Length() + j) == q.At(j))
  {
    Path(p.xs + q.xs, p.ys + q.ys)
  }
}
