/** The four-component homogeneous tuple (x, y, z, w) shared by points and
    vectors, with its componentwise operators. The `w` field is the
    discriminant: 1 marks a point, 0 marks a vector. Floating-point fields
    are modelled by `real`. */
module Tuples {

  datatype BasicTuple = BasicTuple(x: real, y: real, z: real, w: real)

  /** The all-zero tuple (the zero vector). */
  const Zero: BasicTuple := BasicTuple(0.0, 0.0, 0.0, 0.0)

  /** `is_vector`: the tuple is tagged as a vector, which excludes the
      point tag. */
  predicate IsVector(t: BasicTuple)
    ensures IsVector(t) ==> t.w != 1.0
  {
    t.w == 0.0
  }

  /** `is_point`: the tuple is tagged as a point, and then not as a
      vector. */
  predicate IsPoint(t: BasicTuple)
    ensures IsPoint(t) ==> !IsVector(t)
  {
    t.w == 1.0
  }

  /** The two tags are decided by `w` alone, and no tuple carries both. */
  lemma KindIsTag(t: BasicTuple)
    ensures IsPoint(t) <==> t.w == 1.0
    ensures IsVector(t) <==> t.w == 0.0
    ensures !(IsPoint(t) && IsVector(t))
  {
  }

  /** Componentwise sum, `w` included. Point + vector is a point, vector +
      vector a vector, and point + point is tagged as neither: the reason the
      wrappers offer no point + point. */
  function Add(a: BasicTuple, b: BasicTuple): (r: BasicTuple)
    ensures IsPoint(a) && IsVector(b) ==> IsPoint(r)
    ensures IsVector(a) && IsPoint(b) ==> IsPoint(r)
    ensures IsVector(a) && IsVector(b) ==> IsVector(r)
    ensures IsPoint(a) && IsPoint(b) ==> r.w == 2.0 && !IsPoint(r) && !IsVector(r)
  {
    BasicTuple(a.x + b.x, a.y + b.y, a.z + b.z, a.w + b.w)
  }

  /** Componentwise difference, `w` included. Point - point is a vector,
      point - vector a point, vector - vector a vector; vector - point is
      tagged as neither. */
  function Sub(a: BasicTuple, b: BasicTuple): (r: BasicTuple)
    ensures IsPoint(a) && IsPoint(b) ==> IsVector(r)
    ensures IsPoint(a) && IsVector(b) ==> IsPoint(r)
    ensures IsVector(a) && IsVector(b) ==> IsVector(r)
    ensures IsVector(a) && IsPoint(b) ==> r.w == -1.0 && !IsPoint(r) && !IsVector(r)
  {
    BasicTuple(a.x - b.x, a.y - b.y, a.z - b.z, a.w - b.w)
  }

  /** Componentwise negation, `w` included: a negated vector is still a
      vector, a negated point has `w = -1`. */
  function Neg(t: BasicTuple): (r: BasicTuple)
    ensures IsVector(t) <==> IsVector(r)
    ensures IsPoint(t) ==> r.w == -1.0 && !IsPoint(r)
    ensures Add(t, r) == Zero
  {
    BasicTuple(-t.x, -t.y, -t.z, -t.w)
  }

  /** Multiplication by a scalar, `w` included: scaling keeps a vector a
      vector, and scales a point's tag along with its coordinates. */
  function Scale(t: BasicTuple, k: real): (r: BasicTuple)
    ensures IsVector(t) ==> IsVector(r)
    ensures IsPoint(t) ==> r.w == k
    ensures k == 1.0 ==> r == t
    ensures k == 0.0 ==> r == Zero
  {
    BasicTuple(t.x * k, t.y * k, t.z * k, t.w * k)
  }

  /** Division by a nonzero scalar, `w` included. It agrees with scaling by
      the reciprocal and is undone by scaling back by `k`. */
  function Div(t: BasicTuple, k: real): (r: BasicTuple)
    requires k != 0.0
    ensures r == Scale(t, 1.0 / k)
    ensures Scale(r, k) == t
    ensures IsVector(t) <==> IsVector(r)
  {
    BasicTuple(t.x / k, t.y / k, t.z / k, t.w / k)
  }

  /** Subtraction is addition of the negation. */
  lemma SubIsAddNeg(a: BasicTuple, b: BasicTuple)
    ensures Sub(a, b) == Add(a, Neg(b))
  {
  }

  /** Subtraction undoes addition, and addition undoes subtraction. */
  lemma AddSubInverse(a: BasicTuple, b: BasicTuple)
    ensures Sub(Add(a, b), b) == a
    ensures Add(Sub(a, b), b) == a
  {
  }

  /** Subtracting from the zero tuple is negation. */
  lemma SubFromZero(t: BasicTuple)
    ensures Sub(Zero, t) == Neg(t)
  {
  }

  /** Negation is an involution. */
  lemma NegInvolution(t: BasicTuple)
    ensures Neg(Neg(t)) == t
  {
  }

  /** Scaling then dividing by the same nonzero scalar returns the tuple. */
  lemma ScaleDivInverse(t: BasicTuple, k: real)
    requires k != 0.0
    ensures Div(Scale(t, k), k) == t
  {
  }

  /** The operator examples of tuple.rs's tests, in exact arithmetic. */
  lemma OperatorExamples()
    ensures Add(BasicTuple(3.0, -2.0, 5.0, 1.0), BasicTuple(-2.0, 3.0, 1.0, 0.0))
         == BasicTuple(1.0, 1.0, 6.0, 1.0)
    ensures Sub(BasicTuple(3.0, 2.0, 1.0, 1.0), BasicTuple(5.0, 6.0, 7.0, 1.0))
         == BasicTuple(-2.0, -4.0, -6.0, 0.0)
    ensures Sub(BasicTuple(3.0, 2.0, 1.0, 1.0), BasicTuple(5.0, 6.0, 7.0, 0.0))
         == BasicTuple(-2.0, -4.0, -6.0, 1.0)
    ensures Sub(BasicTuple(3.0, 2.0, 1.0, 0.0), BasicTuple(5.0, 6.0, 7.0, 0.0))
         == BasicTuple(-2.0, -4.0, -6.0, 0.0)
    ensures Sub(Zero, BasicTuple(1.0, -2.0, 3.0, 0.0)) == BasicTuple(-1.0, 2.0, -3.0, 0.0)
    ensures Neg(BasicTuple(1.0, -2.0, 3.0, -4.0)) == BasicTuple(-1.0, 2.0, -3.0, 4.0)
    ensures Scale(BasicTuple(1.0, -2.0, 3.0, -4.0), 3.5) == BasicTuple(3.5, -7.0, 10.5, -14.0)
    ensures Scale(BasicTuple(1.0, -2.0, 3.0, -4.0), 0.5) == BasicTuple(0.5, -1.0, 1.5, -2.0)
    ensures Div(BasicTuple(1.0, -2.0, 3.0, -4.0), 2.0) == BasicTuple(0.5, -1.0, 1.5, -2.0)
  {
  }
}
