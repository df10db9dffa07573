# Homogeneous tuple algebra of a ray tracer, in Dafny

This project models the `src/basic/` algebra of a small Rust ray tracer:
a four-field tuple `(x, y, z, w)` whose `w` field tells points (`w = 1`)
from vectors (`w = 0`), and two nominal wrappers over it, `Point` and
`Vector`, that restrict which operations exist.

- `tuple.dfy`, module `Tuples`: `BasicTuple`, the `is_point` / `is_vector`
  tests, and the componentwise `+`, `-`, unary `-`, `* k` and `/ k`, all of
  which include `w`. The Rust operators become the functions `Add`, `Sub`,
  `Neg`, `Scale` and `Div`.
- `vector.dfy`, module `Vectors`: the `Vector` wrapper, its constructor
  `vector(x, y, z)` (`MakeVector`), `Vector + Vector`, `From<&BasicTuple>`
  (`FromTuple`), `dot`, `cross`, the tag queries, the `tuple()` accessor
  (`TupleOf`), the sum of squares under `magnitude`'s root, and `normalize`
  given that magnitude.
- `point.dfy`, module `Points`: the `Point` wrapper, `point(x, y, z)`
  (`MakePoint`), `Point + Vector`, `From<&BasicTuple>`, the tag queries and
  `tuple()`.

All three source files are pure: every operation builds a fresh value, so
everything is a datatype, a function or a lemma. The `f64` fields are
modelled by `real`. The tag arithmetic the proofs rely on (1 + 0, 1 - 1,
1 - 0, 0 - 0, negating 0) is exact in IEEE arithmetic too. Equality is
Dafny's structural equality on datatypes, which matches the derived
`PartialEq`. In IEEE arithmetic `-0.0 == 0.0` holds, so a negated vector
still passes `is_vector`.

`Point` and `Vector` are separate datatypes, so "point + point" cannot be
written. Neither wrapper constrains its tuple's tag by type, and neither
does the Rust newtype. Instead each wrapper's own tag query is its
invariant: `Points.IsPoint` (`w = 1`) and `Vectors.IsVector` (`w = 0`).
Some operations rebuild their result through `point()` or `vector()`:
`point()`, `vector()`, `Point + Vector`, `Vector + Vector`, `cross` and
both `From` conversions. These are proved to return a correctly tagged
value whatever tags their operands carry. `normalize` builds its result
directly from the divided tuple, so it keeps the vector tag only when its
input has it; for an input with `w = 1` it yields `w = 1 / mag`.

Notes on the source:

- `src/basic/point.rs` offers only `Add<Vector>` (point.rs:26-38): there
  is no point - point, point - vector or point negation. The model offers
  none either; the base `Sub` and `Neg` state what such tags would give.
- `tuple()` is implemented for both wrappers (`src/basic/point.rs:20-23`,
  `src/basic/vector.rs:60-63`), but the `Tuple` trait does not declare it
  (`src/basic/tuple.rs:11-14`). The model takes it as the plain unwrapping
  the bodies perform.
- `magnitude` sums the squares of `x`, `y`, `z` only. `normalize` divides
  all four components by that magnitude. The model keeps both as written.
- `magnitude`, `normalize`, `dot` and `cross` are private functions of
  `impl Vector` (vector.rs:10-47), callable only inside the vector module.
  The model defines them all the same.

## Model

| member | source | states |
|---|---|---|
| `Tuples.IsVector` | src/basic/tuple.rs:21-23 | `is_vector`: true exactly when `w = 0`; a tuple tagged as a vector does not have the point tag `w = 1` |
| `Tuples.IsPoint` | src/basic/tuple.rs:17-19 | `is_point`: true exactly when `w = 1`; a tuple tagged as a point is not tagged as a vector |
| `Tuples.KindIsTag` | src/basic/tuple.rs:16-24 | `is_point` holds exactly when `w = 1`, `is_vector` exactly when `w = 0`, and no tuple is both |
| `Tuples.Add` | src/basic/tuple.rs:29-36 | point + vector and vector + point are points, vector + vector is a vector, point + point has `w = 2` and is neither |
| `Tuples.Sub` | src/basic/tuple.rs:81-88 | point - point is a vector, point - vector a point, vector - vector a vector, vector - point has `w = -1` and is neither |
| `Tuples.Neg` | src/basic/tuple.rs:68-75 | negation keeps the vector tag exactly, turns a point's `w` into -1, and is the additive inverse (`t + (-t)` is the zero tuple) |
| `Tuples.Scale` | src/basic/tuple.rs:55-62 | scaling keeps vectors vectors, gives a point the tag `k`, is the identity for `k = 1` and gives the zero tuple for `k = 0` |
| `Tuples.Div` | src/basic/tuple.rs:42-49 | for `k != 0`, dividing equals scaling by `1/k`, is undone by scaling by `k`, and keeps the vector tag exactly |
| `Tuples.SubIsAddNeg` | src/basic/tuple.rs:68-88 | `a - b == a + (-b)` for all tuples |
| `Tuples.AddSubInverse` | src/basic/tuple.rs:29-36 | subtracting `b` undoes adding `b`, and adding `b` undoes subtracting `b` |
| `Tuples.SubFromZero` | src/basic/tuple.rs:127-133 | subtracting a tuple from the zero tuple is negating it |
| `Tuples.NegInvolution` | src/basic/tuple.rs:68-75 | negating twice gives the original tuple |
| `Tuples.ScaleDivInverse` | src/basic/tuple.rs:42-62 | for `k != 0`, scaling by `k` then dividing by `k` gives the original tuple |
| `Tuples.OperatorExamples` | src/basic/tuple.rs:95-161 | the sums, differences, negation, products and quotient of the unit tests, in exact arithmetic |
| `Vectors.MakeVector` | src/basic/vector.rs:87-93 | `vector(x, y, z)` stores exactly `x, y, z` with `w = 0`, and reports a vector and not a point |
| `Vectors.IsPoint` | src/basic/vector.rs:50-53 | `is_point` of a vector asks the wrapped tuple; a vector reporting itself a point wraps a tuple not tagged as a vector |
| `Vectors.IsVector` | src/basic/vector.rs:55-58 | `is_vector` of a vector asks the wrapped tuple; it is the vector invariant, and a vector reporting itself a vector reports no point |
| `Vectors.TagQueries` | src/basic/vector.rs:50-58 | the delegated `is_vector` holds exactly when the wrapped `w` is 0, and `is_point` exactly when it is 1 |
| `Vectors.VectorExample` | src/basic/vector.rs:99-105 | `vector(4.3, -4.2, 3.1)` is a vector and not a point |
| `Vectors.TupleOf` | src/basic/vector.rs:60-63 | a vector reports itself a vector exactly when its unwrapped tuple is tagged as one, and then re-tagging the tuple gives the vector back |
| `Vectors.Add` | src/basic/vector.rs:69-75 | the sum's `x, y, z` are the operands' sums and its `w` is 0 whatever the operands' tags; on vector-tagged operands it equals the tuple sum |
| `Vectors.FromTuple` | src/basic/vector.rs:78-86 | keeps `t.x, t.y, t.z` and sets `w = 0` whatever `t.w` was; the result equals `t` exactly when `t` is tagged as a vector |
| `Vectors.Dot` | src/basic/vector.rs:30-35 | dot over all four components, x1x2+y1y2+z1z2+w1w2; when either operand is tagged as a vector it is the 3-D dot product, and `dot(v, v)` is never negative |
| `Vectors.DotProperties` | src/basic/vector.rs:30-35 | `dot` is commutative |
| `Vectors.Cross` | src/basic/vector.rs:37-46 | the cross product, built by `vector()` from the 3-D formula, is always tagged as a vector |
| `Vectors.CrossAntiCommutes` | src/basic/vector.rs:37-46 | `cross(a, b)` is the componentwise negation of `cross(b, a)` |
| `Vectors.CrossPerpendicular` | src/basic/vector.rs:37-46 | `cross(a, b)` has zero dot product with `a` and with `b`, and `cross(a, a)` is the zero vector |
| `Vectors.SumOfSquares` | src/basic/vector.rs:12-16 | the sum of squares under `magnitude`'s root is non-negative and, on a vector-tagged vector, is `dot(v, v)` |
| `Vectors.SumOfSquaresNegation` | src/basic/vector.rs:130-137 | negating the coordinates leaves the sum of squares unchanged |
| `Vectors.IsMagnitude` | src/basic/vector.rs:12-16 | `m` is the non-negative square root of the sum of squares that `magnitude` returns; a vector with zero `x, y, z` has magnitude 0 and no other |
| `Vectors.MagnitudeUnique` | src/basic/vector.rs:12-16 | there is at most one non-negative square root of the sum of squares, so the magnitude is determined |
| `Vectors.MagnitudeExamples` | src/basic/vector.rs:114-137 | the unit axes have magnitude 1, and (1, 2, 3) and (-1, -2, -3) have magnitude sqrt(14) |
| `Vectors.Normalize` | src/basic/vector.rs:18-28 | normalising divides all four components by the magnitude, `w` included, so the result is tagged as a vector exactly when the input is |
| `Vectors.NormalizeIsUnit` | src/basic/vector.rs:18-28 | a vector normalised by its nonzero magnitude has magnitude exactly 1 |
| `Vectors.NormalizeIdempotent` | src/basic/vector.rs:18-28 | normalising a normalised vector (magnitude 1) returns it unchanged |
| `Vectors.NormalizeExample` | src/basic/vector.rs:140-143 | (4, 0, 0) has magnitude 4 and normalises to (1, 0, 0) |
| `Vectors.OperationExamples` | src/basic/vector.rs:159-173 | `dot((1,2,3), (2,3,4)) == 20`, `cross((1,2,3), (2,3,4)) == (-1,2,-1)` and `cross((2,3,4), (1,2,3)) == (1,-2,1)` |
| `Points.MakePoint` | src/basic/point.rs:50-56 | `point(x, y, z)` stores exactly `x, y, z` with `w = 1`, and reports a point and not a vector |
| `Points.IsPoint` | src/basic/point.rs:10-13 | `is_point` of a point asks the wrapped tuple; it is the point invariant, and a point reporting itself a point reports no vector |
| `Points.IsVector` | src/basic/point.rs:15-18 | `is_vector` of a point asks the wrapped tuple; a point reporting itself a vector wraps a tuple not tagged as a point |
| `Points.TagQueries` | src/basic/point.rs:10-18 | the delegated `is_point` holds exactly when the wrapped `w` is 1, and `is_vector` exactly when it is 0 |
| `Points.PointExample` | src/basic/point.rs:62-68 | `point(4.3, -4.2, 3.1)` is a point and not a vector |
| `Points.TupleOf` | src/basic/point.rs:20-23 | a point reports itself a point exactly when its unwrapped tuple is tagged as one, and then re-tagging the tuple gives the point back |
| `Points.Add` | src/basic/point.rs:29-37 | the result's `x, y, z` are the sums and its `w` is 1 whatever the operands' tags; for a point-tagged point and a vector-tagged vector it equals the tuple sum |
| `Points.FromTuple` | src/basic/point.rs:40-48 | keeps `t.x, t.y, t.z` and sets `w = 1` whatever `t.w` was; the result equals `t` exactly when `t` is tagged as a point |
| `Points.AddThenSub` | src/basic/point.rs:29-37 | subtracting the vector from a translated point gives the point back, and the translated point minus the point is the vector |
| `Points.AddAssociates` | src/basic/point.rs:29-37 | translating by `u` then by `v` equals translating by `u + v` |
| `Points.AddZero` | src/basic/point.rs:29-37 | translating a point-tagged point by the zero vector leaves it unchanged |

## Left out

- `sqrt` in `magnitude` (src/basic/vector.rs:12-16) is not modelled. The `IsMagnitude` predicate characterises its result as the non-negative root of the sum of squares, which is exact only over the reals. Rounding of `f64` square roots is not modelled.
- Vectors.Normalize: takes the magnitude as a parameter characterised by `IsMagnitude`, instead of computing it. It requires a nonzero magnitude, where the source divides by zero and produces NaN or infinities.
- Vectors.NormalizeIsUnit: holds exactly over the reals. The source's test `magnitude_of_normalized_vector` depends on `f64` rounding, and so do `normalize_2`'s tolerance checks; these are not modelled.
- Tuples.Div: requires `k != 0`. The source does not guard division; a zero divisor gives IEEE infinities or NaN, which `real` cannot represent.
- IEEE behaviour in general: NaN, infinities, signed zero and rounding of `+`, `-`, `*`, `/` are not modelled; `real` arithmetic is exact.
- The Rust trait `Tuple`, the `ops` trait implementations and operator syntax are rendered as named functions per module.
- `src/main.rs` is command-line parsing, logger setup and one print statement; it is not part of this model. The projectile simulation and the tuple parser are not in `src/basic/` or `src/main.rs` and are not modelled.
