/**
 * Two worked cases of the intersection curve, stated for any surfaces and
 * leader that behave as described: the planes `z = 0` and `x = 0` meeting
 * along the y-axis, with the y-axis itself as leader; and two parallel
 * planes a unit apart, which never meet.
 */
module Scenarios {
  import opened Options
  import opened Linear
  import opened Capabilities
  import opened Solver
  import opened IntersectionCurves

  /** `s` is the plane `z = 0` parametrized by `(x, y)`, with exact orthogonal projection as its search. */
  ghost predicate IsPlaneZ<S>(so: SurfaceOps<S>, s: S) {
    (forall u: real, v: real :: so.subs(s, u, v) == Vec3(u, v, 0.0)) &&
    (forall u: real, v: real :: so.normal(s, u, v) == Vec3(0.0, 0.0, 1.0)) &&
    (forall q: Point3, h: Option<Param2>, k: nat :: so.search(s, q, h, k) == Some((q.x, q.y)))
  }

  /** `s` is the plane `x = 0` parametrized by `(y, z)`, with exact orthogonal projection as its search. */
  ghost predicate IsPlaneX<S>(so: SurfaceOps<S>, s: S) {
    (forall u: real, v: real :: so.subs(s, u, v) == Vec3(0.0, u, v)) &&
    (forall u: real, v: real :: so.normal(s, u, v) == Vec3(1.0, 0.0, 0.0)) &&
    (forall q: Point3, h: Option<Param2>, k: nat :: so.search(s, q, h, k) == Some((q.y, q.z)))
  }

  /** From the point `(0, t, 0)` along the y-axis, the solver answers at once with that point. */
  lemma YAxisProjection<S>(so: SurfaceOps<S>, s0: S, s1: S, t: real)
    requires IsPlaneZ(so, s0) && IsPlaneX(so, s1)
    ensures Step(so, s0, s1, Vec3(0.0, 1.0, 0.0), Triple(Vec3(0.0, t, 0.0), (0.0, t), (t, 0.0)))
            == Done(Triple(Vec3(0.0, t, 0.0), (0.0, t), (t, 0.0)))
    ensures Projection(so, s0, None, s1, None, Vec3(0.0, t, 0.0), Vec3(0.0, 1.0, 0.0), TRIPLE_TRIALS)
            == Some(Triple(Vec3(0.0, t, 0.0), (0.0, t), (t, 0.0)))
  {
    var p := Vec3(0.0, t, 0.0);
    assert so.search(s0, p, None, SEARCH_TRIALS) == Some((0.0, t));
    assert so.search(s1, p, None, SEARCH_TRIALS) == Some((t, 0.0));
    assert so.search(s0, p, Some((0.0, t)), SEARCH_TRIALS) == Some((0.0, t));
    assert so.search(s1, p, Some((t, 0.0)), SEARCH_TRIALS) == Some((t, 0.0));
    assert At(so, s0, (0.0, t)) == p;
    assert At(so, s1, (t, 0.0)) == p;
    assert Converged(so, s0, s1, Triple(p, (0.0, t), (t, 0.0)));
  }

  /** The curve over the two planes, with the y-axis as leader, finds its triple at once. */
  lemma YAxisTriple<C, S>(curve: IntersectionCurve<C, S>, co: CurveOps<C>, so: SurfaceOps<S>, t: real)
    requires IsPlaneZ(so, curve.surface0) && IsPlaneX(so, curve.surface1)
    requires co.subs(curve.leader, t) == Vec3(0.0, t, 0.0) && co.der(curve.leader, t) == Vec3(0.0, 1.0, 0.0)
    ensures curve.SearchTriple(co, so, t) == Some(Triple(Vec3(0.0, t, 0.0), (0.0, t), (t, 0.0)))
  {
    YAxisProjection(so, curve.surface0, curve.surface1, t);
  }

  /**
   * With the leader on the true intersection, `t -> (0, t, 0)`, the curve's
   * point at `t` is the leader's point, reached with no correction step, and
   * its derivative is `(0, 1, 0)`: the scale factor is 1.
   */
  lemma PlanesMeetAlongLeader<C, S>(curve: IntersectionCurve<C, S>, co: CurveOps<C>, so: SurfaceOps<S>, t: real)
    requires IsPlaneZ(so, curve.surface0) && IsPlaneX(so, curve.surface1)
    requires co.subs(curve.leader, t) == Vec3(0.0, t, 0.0) && co.der(curve.leader, t) == Vec3(0.0, 1.0, 0.0)
    ensures curve.Subs(co, so, t) == Value(Vec3(0.0, t, 0.0))
    ensures curve.Der(co, so, t) == Value(Vec3(0.0, 1.0, 0.0))
  {
    YAxisTriple(curve, co, so, t);
    assert NormalAt(so, curve.surface0, (0.0, t)) == Vec3(0.0, 0.0, 1.0);
    assert NormalAt(so, curve.surface1, (t, 0.0)) == Vec3(1.0, 0.0, 0.0);
    YAxisDer(curve, co, so, t, Triple(Vec3(0.0, t, 0.0), (0.0, t), (t, 0.0)));
  }

  /** The derivative step of the case above, from the triple and the two normals. */
  lemma YAxisDer<C, S>(curve: IntersectionCurve<C, S>, co: CurveOps<C>, so: SurfaceOps<S>, t: real, tr: Triple)
    requires curve.SearchTriple(co, so, t) == Some(tr)
    requires NormalAt(so, curve.surface0, tr.uv0) == Vec3(0.0, 0.0, 1.0)
    requires NormalAt(so, curve.surface1, tr.uv1) == Vec3(1.0, 0.0, 0.0)
    requires co.der(curve.leader, t) == Vec3(0.0, 1.0, 0.0)
    ensures curve.Der(co, so, t) == Value(Vec3(0.0, 1.0, 0.0))
  {
    var r := curve.Der(co, so, t);
    assert Cross(Vec3(0.0, 0.0, 1.0), Vec3(1.0, 0.0, 0.0)) == Vec3(0.0, 1.0, 0.0);
    assert r.Value?;
    AlongYAxis(r.value);
  }

  /** The only vector with unit component along `y` and no cross product with the y-axis is the y-axis direction. */
  lemma AlongYAxis(r: Vector3)
    requires Dot(r, Vec3(0.0, 1.0, 0.0)) == Dot(Vec3(0.0, 1.0, 0.0), Vec3(0.0, 1.0, 0.0))
    requires Cross(r, Vec3(0.0, 1.0, 0.0)) == Zero
    ensures r == Vec3(0.0, 1.0, 0.0)
  {
  }

  /**
   * Whatever the leader, a curve between two parallel planes a unit apart
   * (`z = 0` and `z = 1`) has no triple at any parameter, so its point panics.
   */
  lemma ParallelPlanesNeverMeet<C, S>(curve: IntersectionCurve<C, S>, co: CurveOps<C>, so: SurfaceOps<S>, t: real)
    requires forall uv: Param2 :: At(so, curve.surface0, uv).z == 0.0
    requires forall uv: Param2 :: At(so, curve.surface1, uv).z == 1.0
    ensures curve.SearchTriple(co, so, t).None?
    ensures curve.Subs(co, so, t).Panic?
  {
    NoCommonPointNoAnswer(so, curve.surface0, None, curve.surface1, None, co.subs(curve.leader, t), co.der(curve.leader, t),
                          TRIPLE_TRIALS);
  }
}
