# Intersection curves of truck-geometry, in Dafny

This project models the intersection-curve decorator of the `truck`
B-rep kernel (`truck-geometry/src/decorators/intersection_curve.rs`). It
represents the curve along which two parametric surfaces meet, with no
closed-form equation. A *leader* curve gives a rough point and tangent at
each parameter `t`. The solver `double_projection` then refines that point
onto both surfaces.

The model has six modules:

- `Options`: an `Option` with failure propagation, standing for Rust's `?`.
- `Linear`: 3-vectors, 3x3 and 4x4 matrices (column-major, as in cgmath),
  the dot and cross products, the global `near` test and matrix inversion.
  Arithmetic is over `real`.
- `Capabilities`: what the decorator needs from a surface and from the
  leader. Each capability is a record of function values (`SurfaceOps`,
  `CurveOps`): evaluation, normal, nearest-parameter search, cut, inversion
  and transformation. The surfaces and the leader are otherwise abstract.
- `Solver`: `double_projection`.
  - `Step` is one trial and `Run` is the remaining trials.
  - `Projection` is the whole solver as a function.
  - The method `DoubleProjection` is the source's `for` loop over the
    mutable `point`, `uv0` and `uv1`, proved equal to `Projection`.
- `IntersectionCurves`: the class `IntersectionCurve` with its fields
  `surface0`, `surface1`, `leader` and `tol`.
  - Its queries are functions that read the object.
  - `invert`, `cut` and `transform_by` are methods that update it in place.
  - A `panic` (an `unwrap` of `None`) and a non-finite division are explicit
    outcomes (`Outcome.Panic`, `Outcome.NotFinite`).
- `Scenarios`: two worked cases, stated for any surfaces that behave as
  described.
  - The planes `z = 0` and `x = 0` with the y-axis as leader. The point at
    `t` is `(0, t, 0)` with no correction step, and the derivative is
    `(0, 1, 0)`.
  - Two parallel planes a unit apart, where evaluation always panics.

`near` is the kernel's global tolerance test (`Tolerance::near` of
truck-base). That crate is not part of this model. It is modelled as every
coordinate differing by at most `TOLERANCE = 1.0e-6`. Like the source, it
does not use the curve's own `tol`.

Three points about the code:

- The correction matrix is built from columns `n0, n1, normal` and then
  transposed. Its rows are therefore the two normals and the direction, and
  the new point lies on the two tangent planes and on the plane through the
  old point orthogonal to the direction.
- `cut` keeps one part of the leader in `self` and returns one new curve,
  rather than producing two new curves.
- The tolerance factor of `transform_by` bounds the squared stretch of the
  transform, `|Av|^2 <= TolScale(a) |v|^2` (`TolScaleBoundsStretch`). Every
  rotation or reflection, and the identity, gives 3, not 1 (`TolScaleOfRigid`).
  `tol` is a length, but it is multiplied by this squared factor. So the
  rescale is not conservative when every stretch is below 1/3. A uniform
  scaling by 0.1 shrinks lengths by 0.1 but multiplies `tol` by 0.03
  (`TolScaleUnderShrinksSmallScaling`).

## Model

| member | source | states |
|---|---|---|
| Linear.Invert | truck-geometry/src/decorators/intersection_curve.rs:33 | the inverse is absent exactly when the determinant is zero |
| Linear.InvertSolves | truck-geometry/src/decorators/intersection_curve.rs:32-34 | when the inverse exists, applying it to `b` solves the system: `m * (inv * b) == b` |
| Solver.Step | truck-geometry/src/decorators/intersection_curve.rs:23-35 | one trial fails iff a nearest search fails, or the point has not converged and the correction matrix is singular. It stops iff both searches succeed and the point and both surface points are pairwise near, and then it returns the current point, not a surface point. Otherwise the new point satisfies `n0·x = n0·pt0`, `n1·x = n1·pt1` and `normal·x = normal·point` |
| Solver.Run | truck-geometry/src/decorators/intersection_curve.rs:20-43 | every answer of the bounded loop is converged |
| Solver.Projection | truck-geometry/src/decorators/intersection_curve.rs:18-43 | every answer is converged; no answer with a zero budget; no answer when either initial nearest search fails |
| Solver.DoubleProjection | truck-geometry/src/decorators/intersection_curve.rs:4-44 | the loop over mutable `point`, `uv0`, `uv1` returns exactly what `Projection` defines, so its answer is converged |
| Solver.RunStopsWithinBudget | truck-geometry/src/decorators/intersection_curve.rs:20-43 | an answer comes from some trial `j < trials`, reached through moving trials only, and is what that trial stopped with |
| Solver.RunFindsStop | truck-geometry/src/decorators/intersection_curve.rs:20-28 | conversely, when trial `j < trials` is reached and stops, the loop returns its triple |
| Solver.MoreTrialsSameAnswer | truck-geometry/src/decorators/intersection_curve.rs:20-37 | a larger budget never changes an answer already found |
| Solver.NoCommonPointNoAnswer | truck-geometry/src/decorators/intersection_curve.rs:24-28 | surfaces with no pair of near points make the solver fail, whatever the start, hints and budget |
| IntersectionCurves.Tangent | truck-geometry/src/decorators/intersection_curve.rs:108-113 | the scaled direction `r` has `r·n = n·n` and is parallel to `c` (`r × c = 0`) |
| IntersectionCurves.TangentIgnoresLength | truck-geometry/src/decorators/intersection_curve.rs:108-113 | scaling the direction by any nonzero factor, normalising included, gives the same derivative |
| IntersectionCurves.IntersectionCurve.NewUnchecked | truck-geometry/src/decorators/intersection_curve.rs:65-72 | the four fields are the arguments, unchecked |
| IntersectionCurves.IntersectionCurve.SearchTriple | truck-geometry/src/decorators/intersection_curve.rs:82-92 | the solver from the leader's point and derivative at `t`, no hints, 100 trials; any triple found is converged |
| IntersectionCurves.IntersectionCurve.ParameterRange | truck-geometry/src/decorators/intersection_curve.rs:103 | the range is the leader's |
| IntersectionCurves.IntersectionCurve.Subs | truck-geometry/src/decorators/intersection_curve.rs:104 | panics iff the solver fails; otherwise the value is the solver's point, near both surface points |
| IntersectionCurves.IntersectionCurve.Der | truck-geometry/src/decorators/intersection_curve.rs:105-114 | panics iff the solver fails. Given a triple, it is non-finite iff `c·n = 0`, with `c` the cross product of the normals at the converged parameters and `n` the leader's derivative. Otherwise the value `r` has `r·n = n·n` and is parallel to `c` |
| IntersectionCurves.IntersectionCurve.DerFromTriple | truck-geometry/src/decorators/intersection_curve.rs:105-114 | once the triple is known and `c·n ≠ 0`, the derivative is exactly `c (n·n)/(c·n)` |
| IntersectionCurves.IntersectionCurve.SearchParameter | truck-geometry/src/decorators/intersection_curve.rs:161-171 | never non-finite. It panics iff the leader's search fails or the point at the found parameter panics. `Some(t)` means `t` is the leader's answer and the exact point at `t` is near the query. `None` holds iff the exact point is defined and not near |
| IntersectionCurves.IntersectionCurve.SearchNearestParameter | truck-geometry/src/decorators/intersection_curve.rs:182-189 | the leader's answer, unchanged |
| IntersectionCurves.IntersectionCurve.SearchesAgree | truck-geometry/src/decorators/intersection_curve.rs:161-189 | an accepted exact search equals the approximate one; the exact search panics whenever the approximate one finds nothing |
| IntersectionCurves.IntersectionCurve.Invert | truck-geometry/src/decorators/intersection_curve.rs:151 | the leader is inverted; the surfaces and `tol` are unchanged |
| IntersectionCurves.IntersectionCurve.Cut | truck-geometry/src/decorators/intersection_curve.rs:140-147 | `self` keeps the leader's kept part and the same surfaces and `tol`. The new curve is fresh, with the leader's returned part, the same surfaces and the same `tol` |
| IntersectionCurves.IntersectionCurve.TransformBy | truck-geometry/src/decorators/intersection_curve.rs:197-211 | both surfaces and the leader are transformed; `tol` is multiplied by `TolScale(trans)` |
| IntersectionCurves.TolScaleNonNegative | truck-geometry/src/decorators/intersection_curve.rs:202-210 | the factor is never negative |
| IntersectionCurves.TolScaleIgnoresTranslation | truck-geometry/src/decorators/intersection_curve.rs:202-210 | matrices with the same upper-left 3x3 block give the same factor, so translation does not matter |
| IntersectionCurves.TolScaleOfRigid | truck-geometry/src/decorators/intersection_curve.rs:202-210 | unit-length columns (every rotation or reflection among them, and the identity) give the factor 3 |
| IntersectionCurves.TolScaleOfUniformScaling | truck-geometry/src/decorators/intersection_curve.rs:202-210 | a uniform scaling by `s` gives `3 s^2` |
| IntersectionCurves.TolScaleUnderShrinksSmallScaling | truck-geometry/src/decorators/intersection_curve.rs:202-210 | for a uniform scaling by `s` with `0 < s < 1/3`, the factor is below `s`, so the new `tol` is smaller than the scaled length |
| IntersectionCurves.TolScaleBoundsStretch | truck-geometry/src/decorators/intersection_curve.rs:202-210 | the factor bounds the squared stretching: `|Av|^2 <= TolScale(a) |v|^2` |
| Scenarios.YAxisProjection | truck-geometry/src/decorators/intersection_curve.rs:18-28 | with planes `z = 0` and `x = 0`, the first trial from `(0, t, 0)` stops, and the solver returns `(0, t, 0)` with parameters `(0, t)` and `(t, 0)` |
| Scenarios.YAxisTriple | truck-geometry/src/decorators/intersection_curve.rs:82-92 | with the y-axis as leader, the curve's triple at `t` is that answer |
| Scenarios.PlanesMeetAlongLeader | truck-geometry/src/decorators/intersection_curve.rs:104-114 | the curve's point at `t` is `(0, t, 0)` and its derivative is `(0, 1, 0)` |
| Scenarios.YAxisDer | truck-geometry/src/decorators/intersection_curve.rs:105-114 | from any triple whose normals are `(0,0,1)` and `(1,0,0)`, with leader derivative `(0,1,0)`, the derivative is `(0, 1, 0)` |
| Scenarios.ParallelPlanesNeverMeet | truck-geometry/src/decorators/intersection_curve.rs:82-104 | between planes `z = 0` and `z = 1` the solver fails at every `t`, and the point panics |

## Left out

- IntersectionCurves.IntersectionCurve.Der: `normalize` (a square root) is not modelled. The model scales the unnormalised cross product `c`. Over the reals this gives the same value whenever `c` is non-zero (`TangentIgnoresLength`). When `c` is zero, the source divides by zero; the model reports `NotFinite`, because `c·n` is then zero too.
- The accessors `surface0`, `surface1`, `leader`, `leader_mut` and `tolerance` are the class's fields, read or assigned directly.
- `der2` is an `unimplemented!()` panic and has nothing to state.
- `parameter_division` delegates wholly to a sampling routine outside this file. That routine is not part of this model.
- The test-only debug log and its `eprintln!` output are I/O.
- Floating-point rounding, and whether the Newton iteration converges on real surfaces, are numerics. The model is over `real` and proves the structural and algebraic facts.
- The evaluation, normals, nearest-parameter searches, cut, inversion and transformation of the surfaces and the leader are abstract function values. Properties that depend on their internals are not stated. These include:
  - idempotence of the solver on its own answer;
  - equivariance of evaluation under rigid transforms;
  - inverting twice giving back the leader.
- `Tolerance::near` (truck-base) and the matrix inverse of cgmath are not part of this model. They are modelled from their documented meaning: per-coordinate closeness within `1.0e-6`, and the adjugate divided by the determinant, absent when the determinant is zero.
- `Box` ownership and the cloning of surfaces in `cut` are not modelled. Values are shared; the surfaces are values of an abstract type.
