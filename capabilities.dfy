/**
 * What the intersection curve needs from the objects it is generic over.
 * The source states these needs as trait bounds (`ParametricSurface3D`,
 * `SearchNearestParameter`, `ParametricCurve3D`, `Cut`, `Invertible`,
 * `Transformed<Matrix4>`); here each bound becomes a record of total
 * functions that the operations take as a parameter, so that surfaces and
 * the leader curve stay opaque and every fact proved holds for any of them.
 */
module Capabilities {
  import opened Options
  import opened Linear

  /** A surface parameter `(u, v)`. */
  type Param2 = (real, real)

  /**
   * A surface: point and normal at `(u, v)`, nearest-parameter search with
   * an optional hint and a trial budget (absent when it does not converge),
   * and the affine transform.
   */
  datatype SurfaceOps<!S> = SurfaceOps(
    subs: (S, real, real) -> Point3,
    normal: (S, real, real) -> Vector3,
    search: (S, Point3, Option<Param2>, nat) -> Option<Param2>,
    transform: (S, Matrix4) -> S)

  /**
   * A curve (the leader): point and derivative at `t`, parameter range,
   * nearest-parameter search, splitting, inversion and the affine transform.
   * `cut(c, t)` gives the pair (what the curve becomes, what the call
   * returns): the source's `cut(&mut self, t) -> Self` keeps one part in
   * place and hands back the other.
   */
  datatype CurveOps<!C> = CurveOps(
    subs: (C, real) -> Point3,
    der: (C, real) -> Vector3,
    range: C -> (real, real),
    search: (C, Point3, Option<real>, nat) -> Option<real>,
    cut: (C, real) -> (C, C),
    invert: C -> C,
    transform: (C, Matrix4) -> C)
}
