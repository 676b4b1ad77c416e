/**
 * The intersection-curve entity: two surfaces, a leader curve close to
 * their intersection, and a tolerance. Its points and derivatives come from
 * running the double-projection solver from the leader's point and
 * derivative; cutting, inversion and parameter search delegate to the
 * leader; the affine transform moves all three parts and rescales the
 * tolerance.
 */
module IntersectionCurves {
  import opened Options
  import opened Linear
  import opened Capabilities
  import opened Solver

  /**
   * The result of an evaluation that the source cannot report as an error:
   * a value, a panic (an `unwrap` of an absent solver result), or a vector
   * whose coordinates are not finite (a division by zero in floating point).
   */
  datatype Outcome<+T> = Value(value: T) | Panic | NotFinite

  /** The outer budget of the solver when the curve is evaluated. */
  const TRIPLE_TRIALS: nat := 100

  /**
   * The derivative built from the direction `c` of the intersection line and
   * the leader's derivative `n`: `c` scaled so that its component along `n`
   * is the squared length of `n`.
   */
  function Tangent(c: Vector3, n: Vector3): (r: Vector3)
    requires Dot(c, n) != 0.0
    ensures Dot(r, n) == Dot(n, n)
    ensures Cross(r, c) == Zero
  {
    var s := Dot(n, n) / Dot(c, n);
    DotScale(c, s, n);
    ScaledCrossVanishes(c, s);
    Scale(c, s)
  }

  lemma ScaledCrossVanishes(c: Vector3, s: real)
    ensures Cross(Scale(c, s), c) == Zero
  {
  }

  /**
   * The length of the direction does not matter: scaling it by any non-zero
   * factor (normalising it, for one) gives the same derivative.
   */
  lemma TangentIgnoresLength(c: Vector3, n: Vector3, k: real)
    requires k != 0.0 && Dot(c, n) != 0.0
    ensures Dot(Scale(c, k), n) != 0.0
    ensures Tangent(Scale(c, k), n) == Tangent(c, n)
  {
    DotScale(c, k, n);
    var q, d := Dot(n, n), Dot(c, n);
    assert Dot(Scale(c, k), n) == d * k;
    CoordinateIgnoresFactor(c.x, k, q, d);
    CoordinateIgnoresFactor(c.y, k, q, d);
    CoordinateIgnoresFactor(c.z, k, q, d);
  }

  lemma CoordinateIgnoresFactor(x: real, k: real, q: real, d: real)
    requires k != 0.0 && d != 0.0
    ensures (x * k) * (q / (d * k)) == x * (q / d)
  {
    assert q / (d * k) == (q / d) / k;
    assert (x * k) * ((q / d) / k) == x * (q / d);
  }

  /**
   * The factor `transform_by` multiplies the tolerance by: the sum of the
   * squares of the nine entries `a[i][j]`, `i, j < 3`, of the upper-left
   * block (columns 0 to 2, components x to z).
   */
  function TolScale(a: Matrix4): real {
    a.c0.x * a.c0.x + a.c0.y * a.c0.y + a.c0.z * a.c0.z
    + a.c1.x * a.c1.x + a.c1.y * a.c1.y + a.c1.z * a.c1.z
    + a.c2.x * a.c2.x + a.c2.y * a.c2.y + a.c2.z * a.c2.z
  }

  class IntersectionCurve<C, S> {
    var surface0: S
    var surface1: S
    var leader: C
    var tol: real

    /** Builds the curve as given; nothing about the parts is checked. */
    constructor NewUnchecked(surface0: S, surface1: S, leader: C, tol: real)
      ensures this.surface0 == surface0 && this.surface1 == surface1
      ensures this.leader == leader && this.tol == tol
    {
      this.surface0 := surface0;
      this.surface1 := surface1;
      this.leader := leader;
      this.tol := tol;
    }

    /**
     * The solver from the leader's point at `t`, along the leader's
     * derivative at `t`, with no hints and a budget of 100 trials.
     */
    function SearchTriple(co: CurveOps<C>, so: SurfaceOps<S>, t: real): (r: Option<Triple>)
      reads this
      ensures r.Some? ==> Converged(so, surface0, surface1, r.value)
    {
      Projection(so, surface0, None, surface1, None, co.subs(leader, t), co.der(leader, t), TRIPLE_TRIALS)
    }

    /** The parameter range is the leader's. */
    function ParameterRange(co: CurveOps<C>): (r: (real, real))
      reads this
      ensures r == co.range(leader)
    {
      co.range(leader)
    }

    /**
     * The point at `t`: the solver's point, near both surface points it
     * found; a panic when the solver fails.
     */
    function Subs(co: CurveOps<C>, so: SurfaceOps<S>, t: real): (r: Outcome<Point3>)
      reads this
      ensures r.Panic? <==> SearchTriple(co, so, t).None?
      ensures !r.NotFinite?
      ensures r.Value? ==>
                var tr := SearchTriple(co, so, t).value;
                r.value == tr.point && Near(r.value, At(so, surface0, tr.uv0)) && Near(r.value, At(so, surface1, tr.uv1))
    {
      match SearchTriple(co, so, t)
      case None => Panic
      case Some(tr) => Value(tr.point)
    }

    /**
     * The derivative at `t`: along the cross product `c` of the two normals at
     * the parameters the solver found, with component `n . n` along the
     * leader's derivative `n`. A panic when the solver fails; not finite when
     * `c . n` is zero.
     */
    function Der(co: CurveOps<C>, so: SurfaceOps<S>, t: real): (r: Outcome<Vector3>)
      reads this
      ensures r.Panic? <==> SearchTriple(co, so, t).None?
      ensures SearchTriple(co, so, t).Some? ==>
                var tr, n := SearchTriple(co, so, t).value, co.der(leader, t);
                var c := Cross(NormalAt(so, surface0, tr.uv0), NormalAt(so, surface1, tr.uv1));
                (r.NotFinite? <==> Dot(c, n) == 0.0) &&
                (r.Value? ==> Dot(r.value, n) == Dot(n, n) && Cross(r.value, c) == Zero)
    {
      var n := co.der(leader, t);
      match SearchTriple(co, so, t)
      case None => Panic
      case Some(tr) =>
        var c := Cross(NormalAt(so, surface0, tr.uv0), NormalAt(so, surface1, tr.uv1));
        if Dot(c, n) == 0.0 then NotFinite else Value(Tangent(c, n))
    }

    /** Once the triple at `t` is known, the derivative is `Tangent` of the normals' cross product and the leader's derivative. */
    lemma DerFromTriple(co: CurveOps<C>, so: SurfaceOps<S>, t: real, tr: Triple, c: Vector3, n: Vector3)
      requires SearchTriple(co, so, t) == Some(tr)
      requires c == Cross(NormalAt(so, surface0, tr.uv0), NormalAt(so, surface1, tr.uv1))
      requires n == co.der(leader, t) && Dot(c, n) != 0.0
      ensures Der(co, so, t) == Value(Tangent(c, n))
    {
    }

    /**
     * Parameter search: the leader's nearest parameter `t`, kept only when the
     * curve's exact point at `t` is near `point`. A panic when the leader's
     * search fails or the solver fails at `t`.
     */
    function SearchParameter(co: CurveOps<C>, so: SurfaceOps<S>, point: Point3, hint: Option<real>, trials: nat)
      : (r: Outcome<Option<real>>)
      reads this
      ensures !r.NotFinite?
      ensures r.Panic? <==> co.search(leader, point, hint, trials).None? ||
                            SearchTriple(co, so, co.search(leader, point, hint, trials).value).None?
      ensures r.Value? && r.value.Some? ==>
                co.search(leader, point, hint, trials) == r.value &&
                Subs(co, so, r.value.value).Value? && Near(Subs(co, so, r.value.value).value, point)
      ensures r == Value(None) <==>
                co.search(leader, point, hint, trials).Some? &&
                Subs(co, so, co.search(leader, point, hint, trials).value).Value? &&
                !Near(Subs(co, so, co.search(leader, point, hint, trials).value).value, point)
    {
      var found := co.search(leader, point, hint, trials);
      if found.None? then Panic
      else
        var pt := Subs(co, so, found.value);
        if !pt.Value? then Panic
        else if Near(pt.value, point) then Value(Some(found.value))
        else Value(None)
    }

    /** Nearest-parameter search is the leader's, with no correction. */
    function SearchNearestParameter(co: CurveOps<C>, point: Point3, hint: Option<real>, trials: nat): (r: Option<real>)
      reads this
      ensures r == co.search(leader, point, hint, trials)
    {
      co.search(leader, point, hint, trials)
    }

    /**
     * The two searches agree on every parameter the exact search accepts, and
     * the exact search panics whenever the approximate one finds nothing.
     */
    lemma SearchesAgree(co: CurveOps<C>, so: SurfaceOps<S>, point: Point3, hint: Option<real>, trials: nat)
      ensures SearchParameter(co, so, point, hint, trials).Value? && SearchParameter(co, so, point, hint, trials).value.Some?
              ==> SearchNearestParameter(co, point, hint, trials) == SearchParameter(co, so, point, hint, trials).value
      ensures SearchNearestParameter(co, point, hint, trials).None? ==> SearchParameter(co, so, point, hint, trials).Panic?
    {
    }

    /** Reverses the leader; the surfaces and the tolerance stay. */
    method Invert(co: CurveOps<C>)
      modifies this
      ensures leader == co.invert(old(leader))
      ensures surface0 == old(surface0) && surface1 == old(surface1) && tol == old(tol)
    {
      leader := co.invert(leader);
    }

    /**
     * Cuts the leader at `t`: this curve keeps the part the leader keeps, and
     * the new curve gets the part the leader hands back, the same surfaces and
     * the same tolerance.
     */
    method Cut(co: CurveOps<C>, t: real) returns (back: IntersectionCurve<C, S>)
      modifies this
      ensures fresh(back)
      ensures leader == co.cut(old(leader), t).0 && back.leader == co.cut(old(leader), t).1
      ensures surface0 == old(surface0) && surface1 == old(surface1) && tol == old(tol)
      ensures back.surface0 == old(surface0) && back.surface1 == old(surface1) && back.tol == old(tol)
    {
      var parts := co.cut(leader, t);
      leader := parts.0;
      back := new IntersectionCurve.NewUnchecked(surface0, surface1, parts.1, tol);
    }

    /**
     * Transforms both surfaces and the leader by `trans`, and multiplies the
     * tolerance by the sum of squares of the upper-left 3x3 block.
     */
    method TransformBy(co: CurveOps<C>, so: SurfaceOps<S>, trans: Matrix4)
      modifies this
      ensures surface0 == so.transform(old(surface0), trans) && surface1 == so.transform(old(surface1), trans)
      ensures leader == co.transform(old(leader), trans)
      ensures tol == old(tol) * TolScale(trans)
    {
      surface0 := so.transform(surface0, trans);
      surface1 := so.transform(surface1, trans);
      leader := co.transform(leader, trans);
      tol := tol * TolScale(trans);
    }
  }

  /** The linear part of `a` applied to the vector `v` (the translation column does not act on vectors). */
  function ApplyLinear(a: Matrix4, v: Vector3): Vector3 {
    Vec3(a.c0.x * v.x + a.c1.x * v.y + a.c2.x * v.z,
         a.c0.y * v.x + a.c1.y * v.y + a.c2.y * v.z,
         a.c0.z * v.x + a.c1.z * v.y + a.c2.z * v.z)
  }

  /** The tolerance factor never shrinks a tolerance to a negative one. */
  lemma TolScaleNonNegative(a: Matrix4)
    ensures TolScale(a) >= 0.0
  {
  }

  /**
   * The translation column and the projective row do not affect the factor:
   * only the upper-left 3x3 block does.
   */
  lemma TolScaleIgnoresTranslation(a: Matrix4, b: Matrix4)
    requires a.c0.x == b.c0.x && a.c0.y == b.c0.y && a.c0.z == b.c0.z
    requires a.c1.x == b.c1.x && a.c1.y == b.c1.y && a.c1.z == b.c1.z
    requires a.c2.x == b.c2.x && a.c2.y == b.c2.y && a.c2.z == b.c2.z
    ensures TolScale(a) == TolScale(b)
  {
  }

  /**
   * A transform whose linear part has unit-length columns (every rotation or
   * reflection among them, possibly with a translation, and the identity)
   * multiplies the tolerance by 3, not 1.
   */
  lemma TolScaleOfRigid(a: Matrix4)
    requires Dot(Vec3(a.c0.x, a.c0.y, a.c0.z), Vec3(a.c0.x, a.c0.y, a.c0.z)) == 1.0
    requires Dot(Vec3(a.c1.x, a.c1.y, a.c1.z), Vec3(a.c1.x, a.c1.y, a.c1.z)) == 1.0
    requires Dot(Vec3(a.c2.x, a.c2.y, a.c2.z), Vec3(a.c2.x, a.c2.y, a.c2.z)) == 1.0
    ensures TolScale(a) == 3.0
  {
  }

  /** A uniform scaling by `s` multiplies the tolerance by `3 s^2`. */
  lemma TolScaleOfUniformScaling(s: real, t: Vec4)
    ensures TolScale(Matrix4(Vec4(s, 0.0, 0.0, 0.0), Vec4(0.0, s, 0.0, 0.0), Vec4(0.0, 0.0, s, 0.0), t)) == 3.0 * s * s
  {
  }

  /**
   * As a factor on a length, the rescale is not conservative for a map that
   * shrinks a lot: a uniform scaling by `s` with `0 < s < 1/3` shrinks every
   * length by `s` but multiplies the tolerance by less than `s`.
   */
  lemma TolScaleUnderShrinksSmallScaling(s: real, t: Vec4)
    requires 0.0 < s && 3.0 * s < 1.0
    ensures TolScale(Matrix4(Vec4(s, 0.0, 0.0, 0.0), Vec4(0.0, s, 0.0, 0.0), Vec4(0.0, 0.0, s, 0.0), t)) < s
  {
    TolScaleOfUniformScaling(s, t);
    ShrinkingSquare(TolScale(Matrix4(Vec4(s, 0.0, 0.0, 0.0), Vec4(0.0, s, 0.0, 0.0), Vec4(0.0, 0.0, s, 0.0), t)), s);
  }

  lemma ShrinkingSquare(x: real, s: real)
    requires 0.0 < s && 3.0 * s < 1.0 && x == 3.0 * s * s
    ensures x < s
  {
  }

  /**
   * The factor bounds the squared stretching of the transform: no vector's
   * squared length grows by more than `TolScale(a)`.
   */
  lemma TolScaleBoundsStretch(a: Matrix4, v: Vector3)
    ensures Dot(ApplyLinear(a, v), ApplyLinear(a, v)) <= TolScale(a) * Dot(v, v)
  {
    var r0, r1, r2 := Vec3(a.c0.x, a.c1.x, a.c2.x), Vec3(a.c0.y, a.c1.y, a.c2.y), Vec3(a.c0.z, a.c1.z, a.c2.z);
    CauchySchwarz(r0, v);
    CauchySchwarz(r1, v);
    CauchySchwarz(r2, v);
    assert ApplyLinear(a, v) == Vec3(Dot(r0, v), Dot(r1, v), Dot(r2, v));
    assert TolScale(a) == Dot(r0, r0) + Dot(r1, r1) + Dot(r2, r2);
    SumOfBounds(Dot(r0, v), Dot(r1, v), Dot(r2, v), Dot(r0, r0), Dot(r1, r1), Dot(r2, r2), Dot(v, v));
  }

  lemma SumOfBounds(p: real, q: real, r: real, a: real, b: real, c: real, w: real)
    requires p * p <= a * w && q * q <= b * w && r * r <= c * w
    ensures p * p + q * q + r * r <= (a + b + c) * w
  {
    assert (a + b + c) * w == a * w + b * w + c * w;
  }

  /** `(r . v)^2 <= (r . r)(v . v)`, from Lagrange's identity. */
  lemma CauchySchwarz(r: Vector3, v: Vector3)
    ensures Dot(r, v) * Dot(r, v) <= Dot(r, r) * Dot(v, v)
  {
    Lagrange(r, v);
  }

  lemma Lagrange(r: Vector3, v: Vector3)
    ensures Dot(r, r) * Dot(v, v) - Dot(r, v) * Dot(r, v) == Dot(Cross(r, v), Cross(r, v))
  {
  }
}
