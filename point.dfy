/** `Point`: a nominal wrapper over `BasicTuple` for locations. It is built
    by `point(x, y, z)`, which tags `w = 1`. The only arithmetic it offers
    is translation by a `Vector`; as `Point` and `Vector` are distinct
    types, there is no point + point to call. */
module Points {
  import opened Tuples
  import Vectors

  datatype Point = Point(t: BasicTuple)

  /** `point(x, y, z)`: stores exactly the three coordinates, tagged as a
      point and not as a vector. */
  function MakePoint(x: real, y: real, z: real): (p: Point)
    ensures IsPoint(p) && !IsVector(p)
    ensures p.t.x == x && p.t.y == y && p.t.z == z
  {
    Point(BasicTuple(x, y, z, 1.0))
  }

  /** `is_point` of a point: asks the wrapped tuple. This is also the
      invariant every point the module builds keeps (tag `w = 1`); a point
      reporting itself a point does not report itself a vector. */
  predicate IsPoint(p: Point)
    ensures IsPoint(p) ==> !IsVector(p)
  {
    Tuples.IsPoint(p.t)
  }

  /** `is_vector` of a point: asks the wrapped tuple. A point that reports
      itself a vector wraps a tuple that is not tagged as a point. */
  predicate IsVector(p: Point)
    ensures IsVector(p) ==> !Tuples.IsPoint(p.t)
  {
    Tuples.IsVector(p.t)
  }

  /** The delegated tag queries are decided by the wrapped `w` alone. */
  lemma TagQueries(p: Point)
    ensures IsPoint(p) <==> p.t.w == 1.0
    ensures IsVector(p) <==> p.t.w == 0.0
  {
  }

  /** `tuple()`: the wrapped tuple. Re-tagging it gives the point back. */
  function TupleOf(p: Point): (t: BasicTuple)
    ensures IsPoint(p) ==> FromTuple(t) == p
    ensures IsPoint(p) <==> Tuples.IsPoint(t)
  {
    p.t
  }

  /** `Point + Vector`: rebuilt through `point()`, so the result is a point
      whatever the operands' tags; for a point-tagged point and a vector-tagged vector it is
      the base tuple sum of the wrapped tuples. */
  function Add(p: Point, v: Vectors.Vector): (r: Point)
    ensures IsPoint(r)
    ensures r.t.x == p.t.x + v.t.x && r.t.y == p.t.y + v.t.y && r.t.z == p.t.z + v.t.z
    ensures IsPoint(p) && Vectors.IsVector(v) ==> r.t == Tuples.Add(p.t, v.t)
  {
    var a := TupleOf(p);
    var b := Vectors.TupleOf(v);
    MakePoint(a.x + b.x, a.y + b.y, a.z + b.z)
  }

  /** `Point::from(&t)`: keeps the coordinates and re-tags `w = 1` whatever
      `t.w` was; a tuple already tagged as a point comes back unchanged. */
  function FromTuple(t: BasicTuple): (p: Point)
    ensures IsPoint(p)
    ensures p.t.x == t.x && p.t.y == t.y && p.t.z == t.z
    ensures p.t == t <==> Tuples.IsPoint(t)
  {
    MakePoint(t.x, t.y, t.z)
  }

  /** Translating a point by a vector and subtracting the vector again, in
      the base tuple algebra, returns the point; the displacement between
      the translated and the original point is that vector. */
  lemma AddThenSub(p: Point, v: Vectors.Vector)
    requires IsPoint(p) && Vectors.IsVector(v)
    ensures Sub(Add(p, v).t, v.t) == p.t
    ensures Sub(Add(p, v).t, p.t) == v.t
  {
  }

  /** Translations compose: moving by `u` and then by `v` is moving by
      `u + v`. */
  lemma AddAssociates(p: Point, u: Vectors.Vector, v: Vectors.Vector)
    ensures Add(Add(p, u), v) == Add(p, Vectors.Add(u, v))
  {
  }

  /** Translating by the zero vector leaves a point-tagged point unchanged. */
  lemma AddZero(p: Point)
    requires IsPoint(p)
    ensures Add(p, Vectors.MakeVector(0.0, 0.0, 0.0)) == p
  {
  }

  /** The example of point.rs's test: `point(4.3, -4.2, 3.1)` is a point and
      not a vector. */
  lemma PointExample()
    ensures IsPoint(MakePoint(4.3, -4.2, 3.1)) && !IsVector(MakePoint(4.3, -4.2, 3.1))
  {
  }
}
