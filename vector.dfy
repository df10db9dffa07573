/** `Vector`: a nominal wrapper over `BasicTuple` for displacements. It is
    built by `vector(x, y, z)`, which tags `w = 0`. Its public operations
    are vector + vector and the conversion from a tuple; it also defines
    dot, cross, magnitude and normalisation, which vector.rs keeps private
    to its module. */
module Vectors {
  import opened Tuples

  datatype Vector = Vector(t: BasicTuple)

  /** `vector(x, y, z)`: stores exactly the three coordinates, tagged as a
      vector and not as a point. */
  function MakeVector(x: real, y: real, z: real): (v: Vector)
    ensures IsVector(v) && !IsPoint(v)
    ensures v.t.x == x && v.t.y == y && v.t.z == z
  {
    Vector(BasicTuple(x, y, z, 0.0))
  }

  /** `is_point` of a vector: asks the wrapped tuple. A vector that
      reports itself a point wraps a tuple that is not tagged as a vector. */
  predicate IsPoint(v: Vector)
    ensures IsPoint(v) ==> !Tuples.IsVector(v.t)
  {
    Tuples.IsPoint(v.t)
  }

  /** `is_vector` of a vector: asks the wrapped tuple. This is also the
      invariant every vector the module builds keeps (tag `w = 0`); a vector
      reporting itself a vector does not report itself a point. */
  predicate IsVector(v: Vector)
    ensures IsVector(v) ==> !IsPoint(v)
  {
    Tuples.IsVector(v.t)
  }

  /** The delegated tag queries are decided by the wrapped `w` alone. */
  lemma TagQueries(v: Vector)
    ensures IsVector(v) <==> v.t.w == 0.0
    ensures IsPoint(v) <==> v.t.w == 1.0
  {
  }

  /** The example of vector.rs's first test: `vector(4.3, -4.2, 3.1)` is a
      vector and not a point. */
  lemma VectorExample()
    ensures IsVector(MakeVector(4.3, -4.2, 3.1)) && !IsPoint(MakeVector(4.3, -4.2, 3.1))
  {
  }

  /** `tuple()`: the wrapped tuple. Re-tagging it gives the vector back. */
  function TupleOf(v: Vector): (t: BasicTuple)
    ensures IsVector(v) ==> FromTuple(t) == v
    ensures IsVector(v) <==> Tuples.IsVector(t)
  {
    v.t
  }

  /** `Vector + Vector`: rebuilt through `vector()`, so the sum is a vector
      whatever the operands' tags; on vector-tagged operands it is the base
      tuple sum. */
  function Add(a: Vector, b: Vector): (r: Vector)
    ensures IsVector(r)
    ensures r.t.x == a.t.x + b.t.x && r.t.y == a.t.y + b.t.y && r.t.z == a.t.z + b.t.z
    ensures IsVector(a) && IsVector(b) ==> r.t == Tuples.Add(a.t, b.t)
  {
    MakeVector(a.t.x + b.t.x, a.t.y + b.t.y, a.t.z + b.t.z)
  }

  /** `Vector::from(&t)`: keeps the coordinates and re-tags `w = 0` whatever
      `t.w` was; a tuple already tagged as a vector comes back unchanged. */
  function FromTuple(t: BasicTuple): (v: Vector)
    ensures IsVector(v)
    ensures v.t.x == t.x && v.t.y == t.y && v.t.z == t.z
    ensures v.t == t <==> Tuples.IsVector(t)
  {
    MakeVector(t.x, t.y, t.z)
  }

  /** Dot product over all four components. When either operand is tagged
      as a vector the `w` term vanishes and it is the usual 3-D dot product;
      a vector's dot product with itself is never negative. */
  function Dot(a: Vector, b: Vector): (r: real)
    ensures IsVector(a) || IsVector(b) ==> r == a.t.x * b.t.x + a.t.y * b.t.y + a.t.z * b.t.z
    ensures a == b ==> r >= 0.0
  {
    a.t.x * b.t.x + a.t.y * b.t.y + a.t.z * b.t.z + a.t.w * b.t.w
  }

  /** The dot product is symmetric in its operands. */
  lemma DotProperties(a: Vector, b: Vector)
    ensures Dot(a, b) == Dot(b, a)
  {
  }

  /** Cross product of the three spatial components, built by `vector()`. */
  function Cross(a: Vector, b: Vector): (r: Vector)
    ensures IsVector(r)
  {
    MakeVector(a.t.y * b.t.z - a.t.z * b.t.y,
               a.t.z * b.t.x - a.t.x * b.t.z,
               a.t.x * b.t.y - a.t.y * b.t.x)
  }

  /** Swapping the operands negates the cross product. */
  lemma CrossAntiCommutes(a: Vector, b: Vector)
    ensures Cross(a, b).t == Neg(Cross(b, a).t)
  {
  }

  /** The cross product is perpendicular to both of its operands, and a
      vector crossed with itself is the zero vector. */
  lemma CrossPerpendicular(a: Vector, b: Vector)
    ensures Dot(Cross(a, b), a) == 0.0
    ensures Dot(Cross(a, b), b) == 0.0
    ensures Cross(a, a).t == Zero
  {
  }

  /** The quantity under `magnitude`'s square root: the sum of the squares
      of `x`, `y`, `z` only. It is never negative and, on a vector-tagged
      vector, is the vector's dot product with itself. */
  function SumOfSquares(v: Vector): (s: real)
    ensures s >= 0.0
    ensures IsVector(v) ==> s == Dot(v, v)
  {
    v.t.x * v.t.x + v.t.y * v.t.y + v.t.z * v.t.z
  }

  /** Negating the coordinates leaves the sum of squares unchanged. */
  lemma SumOfSquaresNegation(x: real, y: real, z: real)
    ensures SumOfSquares(MakeVector(-x, -y, -z)) == SumOfSquares(MakeVector(x, y, z))
  {
  }

  /** `m` is what `magnitude` computes: the non-negative square root of the
      sum of squares. A vector whose `x`, `y` and `z` are all zero has
      magnitude 0 and no other, which is why `normalize` needs a nonzero
      spatial part. */
  predicate IsMagnitude(v: Vector, m: real)
    ensures v.t.x == 0.0 && v.t.y == 0.0 && v.t.z == 0.0 ==> (IsMagnitude(v, m) <==> m == 0.0)
  {
    m >= 0.0 && (SquareStrictlyMonotone(0.0, m); m * m == SumOfSquares(v))
  }

  /** The magnitude is determined uniquely, so the predicate pins down the
      one value `magnitude` returns. */
  lemma MagnitudeUnique(v: Vector, m1: real, m2: real)
    requires IsMagnitude(v, m1) && IsMagnitude(v, m2)
    ensures m1 == m2
  {
    SquareStrictlyMonotone(m1, m2);
    SquareStrictlyMonotone(m2, m1);
  }

  /** Squaring is strictly increasing on the non-negative reals. */
  lemma SquareStrictlyMonotone(a: real, b: real)
    requires a >= 0.0 && b >= 0.0
    ensures a < b ==> a * a < b * b
  {
    if a < b {
      assert a * b - a * a == a * (b - a) >= 0.0;
      assert b * b - a * b == b * (b - a) > 0.0;
    }
  }

  /** `magnitude` examples from vector.rs's tests: the unit axes have
      magnitude 1 and (1, 2, 3) and (-1, -2, -3) have magnitude sqrt(14). */
  lemma MagnitudeExamples(m: real)
    ensures IsMagnitude(MakeVector(1.0, 0.0, 0.0), 1.0)
    ensures IsMagnitude(MakeVector(0.0, 1.0, 0.0), 1.0)
    ensures IsMagnitude(MakeVector(0.0, 0.0, 1.0), 1.0)
    ensures IsMagnitude(MakeVector(1.0, 2.0, 3.0), m) <==> m >= 0.0 && m * m == 14.0
    ensures IsMagnitude(MakeVector(-1.0, -2.0, -3.0), m) <==> m >= 0.0 && m * m == 14.0
  {
  }

  /** `normalize`, given the magnitude `mag` that the source computes with
      `sqrt`: all four components are divided by it, `w` included, so the
      result is tagged as a vector exactly when the input is. */
  function Normalize(v: Vector, mag: real): (r: Vector)
    requires IsMagnitude(v, mag) && mag != 0.0
    ensures r.t == Div(v.t, mag)
    ensures IsVector(v) <==> IsVector(r)
  {
    Vector(BasicTuple(v.t.x / mag, v.t.y / mag, v.t.z / mag, v.t.w / mag))
  }

  /** A normalised vector has magnitude exactly 1 (in exact arithmetic). */
  lemma NormalizeIsUnit(v: Vector, mag: real)
    requires IsMagnitude(v, mag) && mag != 0.0
    ensures IsMagnitude(Normalize(v, mag), 1.0)
  {
  }

  /** Normalising a normalised vector changes nothing. */
  lemma NormalizeIdempotent(v: Vector, mag: real)
    requires IsMagnitude(v, mag) && mag != 0.0
    ensures IsMagnitude(Normalize(v, mag), 1.0)
    ensures Normalize(Normalize(v, mag), 1.0) == Normalize(v, mag)
  {
    NormalizeIsUnit(v, mag);
  }

  /** The first `normalize` example of vector.rs's tests: (4, 0, 0) has
      magnitude 4 and normalises to (1, 0, 0). */
  lemma NormalizeExample()
    ensures IsMagnitude(MakeVector(4.0, 0.0, 0.0), 4.0)
    ensures Normalize(MakeVector(4.0, 0.0, 0.0), 4.0) == MakeVector(1.0, 0.0, 0.0)
  {
  }

  /** The `dot` and `cross` examples of vector.rs's tests. */
  lemma OperationExamples()
    ensures Dot(MakeVector(1.0, 2.0, 3.0), MakeVector(2.0, 3.0, 4.0)) == 20.0
    ensures Cross(MakeVector(1.0, 2.0, 3.0), MakeVector(2.0, 3.0, 4.0)) == MakeVector(-1.0, 2.0, -1.0)
    ensures Cross(MakeVector(2.0, 3.0, 4.0), MakeVector(1.0, 2.0, 3.0)) == MakeVector(1.0, -2.0, 1.0)
  {
  }
}
