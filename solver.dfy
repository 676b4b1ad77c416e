/**
 * `double_projection`: the bounded Newton-type loop that pulls an estimate
 * onto the intersection of two surfaces.
 *
 * Each trial snaps the current point to both surfaces by nearest-parameter
 * search; when the point and the two surface points are pairwise near it
 * stops, otherwise it moves the point to the intersection of the two tangent
 * planes with the plane through the point orthogonal to the given direction.
 *
 * `Step` is one trial, `Run` the remaining trials and `Projection` the whole
 * solver as functions; the method `DoubleProjection` is the loop itself and
 * is proved equal to `Projection`.
 */
module Solver {
  import opened Options
  import opened Linear
  import opened Capabilities

  /**
   * A point with parameters on surface 0 and surface 1: what the loop carries
   * from one trial to the next, and the solver's answer.
   */
  datatype Triple = Triple(point: Point3, uv0: Param2, uv1: Param2)

  /** One trial either fails, stops with an answer, or moves to a new iterate. */
  datatype StepOutcome = Failed | Done(result: Triple) | Moved(next: Triple)

  /** The budget of every nearest-parameter search the solver makes. */
  const SEARCH_TRIALS: nat := 10

  function At<S>(so: SurfaceOps<S>, s: S, uv: Param2): Point3 { so.subs(s, uv.0, uv.1) }

  function NormalAt<S>(so: SurfaceOps<S>, s: S, uv: Param2): Vector3 { so.normal(s, uv.0, uv.1) }

  /** The stopping test: the point and both surface points are pairwise near. */
  predicate Converged<S>(so: SurfaceOps<S>, s0: S, s1: S, t: Triple) {
    Near(t.point, At(so, s0, t.uv0)) && Near(t.point, At(so, s1, t.uv1)) && Near(At(so, s0, t.uv0), At(so, s1, t.uv1))
  }

  /** The correction matrix, whose rows are the two normals and the direction. */
  function CorrectionMatrix(n0: Vector3, n1: Vector3, normal: Vector3): Matrix3 {
    Transpose(FromCols(n0, n1, normal))
  }

  /**
   * One trial from iterate `it`. It fails when either search fails, or when
   * the point has not converged and the correction matrix is singular; it
   * stops with the current point (not a surface point) when the three points
   * are near; otherwise the new point lies on the tangent plane of each
   * surface at its snapped parameter and on the plane through the old point
   * orthogonal to `normal`.
   */
  function Step<S>(so: SurfaceOps<S>, s0: S, s1: S, normal: Vector3, it: Triple): (r: StepOutcome)
    ensures var o0, o1 := so.search(s0, it.point, Some(it.uv0), SEARCH_TRIALS), so.search(s1, it.point, Some(it.uv1), SEARCH_TRIALS);
            r.Failed? <==>
              (o0.None? || o1.None? ||
               (!Converged(so, s0, s1, Triple(it.point, o0.value, o1.value)) &&
                Invert(CorrectionMatrix(NormalAt(so, s0, o0.value), NormalAt(so, s1, o1.value), normal)).None?))
    ensures var o0, o1 := so.search(s0, it.point, Some(it.uv0), SEARCH_TRIALS), so.search(s1, it.point, Some(it.uv1), SEARCH_TRIALS);
            r.Done? <==> o0.Some? && o1.Some? && Converged(so, s0, s1, Triple(it.point, o0.value, o1.value))
    ensures r.Done? ==>
              r.result == Triple(it.point, so.search(s0, it.point, Some(it.uv0), SEARCH_TRIALS).value,
                                 so.search(s1, it.point, Some(it.uv1), SEARCH_TRIALS).value)
    ensures r.Moved? ==>
              var uv0, uv1, x := r.next.uv0, r.next.uv1, r.next.point;
              so.search(s0, it.point, Some(it.uv0), SEARCH_TRIALS) == Some(uv0) &&
              so.search(s1, it.point, Some(it.uv1), SEARCH_TRIALS) == Some(uv1) &&
              Dot(NormalAt(so, s0, uv0), x) == Dot(At(so, s0, uv0), NormalAt(so, s0, uv0)) &&
              Dot(NormalAt(so, s1, uv1), x) == Dot(At(so, s1, uv1), NormalAt(so, s1, uv1)) &&
              Dot(normal, x) == Dot(it.point, normal)
  {
    var o0 := so.search(s0, it.point, Some(it.uv0), SEARCH_TRIALS);
    if o0.None? then Failed
    else
      var o1 := so.search(s1, it.point, Some(it.uv1), SEARCH_TRIALS);
      if o1.None? then Failed
      else
        var uv0, uv1 := o0.value, o1.value;
        var pt0, pt1 := At(so, s0, uv0), At(so, s1, uv1);
        if Near(it.point, pt0) && Near(it.point, pt1) && Near(pt0, pt1) then Done(Triple(it.point, uv0, uv1))
        else
          var n0, n1 := NormalAt(so, s0, uv0), NormalAt(so, s1, uv1);
          var mat := CorrectionMatrix(n0, n1, normal);
          var inv := Invert(mat);
          if inv.None? then Failed
          else
            var b := Vec3(Dot(pt0, n0), Dot(pt1, n1), Dot(it.point, normal));
            InvertSolves(mat, b);
            TransposedColsAreRows(n0, n1, normal);
            Moved(Triple(MulVec(inv.value, b), uv0, uv1))
  }

  /** At most `trials` more trials from `it`: absent when they run out or one fails. */
  function Run<S>(so: SurfaceOps<S>, s0: S, s1: S, normal: Vector3, it: Triple, trials: nat): (r: Option<Triple>)
    ensures r.Some? ==> Converged(so, s0, s1, r.value)
    decreases trials
  {
    if trials == 0 then None
    else
      match Step(so, s0, s1, normal, it)
      case Failed => None
      case Done(t) => Some(t)
      case Moved(next) => Run(so, s0, s1, normal, next, trials - 1)
  }

  /**
   * The whole solver: the two initial searches from `point` with the given
   * hints, then at most `trials` trials with `normal` as the direction.
   */
  function Projection<S>(so: SurfaceOps<S>, s0: S, hint0: Option<Param2>, s1: S, hint1: Option<Param2>,
                         point: Point3, normal: Vector3, trials: nat): (r: Option<Triple>)
    ensures r.Some? ==> Converged(so, s0, s1, r.value)
    ensures trials == 0 ==> r.None?
    ensures so.search(s0, point, hint0, SEARCH_TRIALS).None? ==> r.None?
    ensures so.search(s1, point, hint1, SEARCH_TRIALS).None? ==> r.None?
  {
    var uv0 :- so.search(s0, point, hint0, SEARCH_TRIALS);
    var uv1 :- so.search(s1, point, hint1, SEARCH_TRIALS);
    Run(so, s0, s1, normal, Triple(point, uv0, uv1), trials)
  }

  /** The loop as the source writes it, over the mutable `point`, `uv0` and `uv1`. */
  method DoubleProjection<S>(so: SurfaceOps<S>, surface0: S, hint0: Option<Param2>, surface1: S, hint1: Option<Param2>,
                             start: Point3, normal: Vector3, trials: nat) returns (r: Option<Triple>)
    ensures r == Projection(so, surface0, hint0, surface1, hint1, start, normal, trials)
    ensures r.Some? ==> Converged(so, surface0, surface1, r.value)
  {
    var point := start;
    var uv0 :- so.search(surface0, point, hint0, SEARCH_TRIALS);
    var uv1 :- so.search(surface1, point, hint1, SEARCH_TRIALS);
    for i := 0 to trials
      invariant Run(so, surface0, surface1, normal, Triple(point, uv0, uv1), trials - i)
                == Projection(so, surface0, hint0, surface1, hint1, start, normal, trials)
    {
      ghost var it := Triple(point, uv0, uv1);
      uv0 :- so.search(surface0, point, Some(uv0), SEARCH_TRIALS);
      var pt0 := At(so, surface0, uv0);
      uv1 :- so.search(surface1, point, Some(uv1), SEARCH_TRIALS);
      var pt1 := At(so, surface1, uv1);
      if Near(point, pt0) && Near(point, pt1) && Near(pt0, pt1) {
        return Some(Triple(point, uv0, uv1));
      } else {
        var n0 := NormalAt(so, surface0, uv0);
        var n1 := NormalAt(so, surface1, uv1);
        var mat := Transpose(FromCols(n0, n1, normal));
        var inv :- Invert(mat);
        point := MulVec(inv, Vec3(Dot(pt0, n0), Dot(pt1, n1), Dot(point, normal)));
        assert Step(so, surface0, surface1, normal, it) == Moved(Triple(point, uv0, uv1));
      }
    }
    return None;
  }

  /** The iterate at the start of trial `j`, when every earlier trial moved. */
  function Walk<S>(so: SurfaceOps<S>, s0: S, s1: S, normal: Vector3, it: Triple, j: nat): Option<Triple>
    decreases j
  {
    if j == 0 then Some(it)
    else
      match Step(so, s0, s1, normal, it)
      case Moved(next) => Walk(so, s0, s1, normal, next, j - 1)
      case _ => None
  }

  /** An answer comes from a trial within the budget, and is what that trial stopped with. */
  lemma {:induction false} RunStopsWithinBudget<S>(so: SurfaceOps<S>, s0: S, s1: S, normal: Vector3, it: Triple, trials: nat)
    requires Run(so, s0, s1, normal, it, trials).Some?
    ensures exists j :: 0 <= j < trials && Walk(so, s0, s1, normal, it, j).Some? &&
                        Step(so, s0, s1, normal, Walk(so, s0, s1, normal, it, j).value) == Done(Run(so, s0, s1, normal, it, trials).value)
    decreases trials
  {
    match Step(so, s0, s1, normal, it)
    case Done(t) =>
      assert Walk(so, s0, s1, normal, it, 0) == Some(it);
    case Moved(next) =>
      RunStopsWithinBudget(so, s0, s1, normal, next, trials - 1);
      var j :| 0 <= j < trials - 1 && Walk(so, s0, s1, normal, next, j).Some? &&
               Step(so, s0, s1, normal, Walk(so, s0, s1, normal, next, j).value) == Done(Run(so, s0, s1, normal, next, trials - 1).value);
      assert Walk(so, s0, s1, normal, it, j + 1) == Walk(so, s0, s1, normal, next, j);
  }

  /** Conversely, a trial within the budget that stops gives the answer. */
  lemma {:induction false} RunFindsStop<S>(so: SurfaceOps<S>, s0: S, s1: S, normal: Vector3, it: Triple, trials: nat, j: nat)
    requires j < trials
    requires Walk(so, s0, s1, normal, it, j).Some?
    requires Step(so, s0, s1, normal, Walk(so, s0, s1, normal, it, j).value).Done?
    ensures Run(so, s0, s1, normal, it, trials) == Some(Step(so, s0, s1, normal, Walk(so, s0, s1, normal, it, j).value).result)
    decreases j
  {
    if j > 0 {
      RunFindsStop(so, s0, s1, normal, Step(so, s0, s1, normal, it).next, trials - 1, j - 1);
    }
  }

  /** A larger budget never changes an answer already found. */
  lemma {:induction false} MoreTrialsSameAnswer<S>(so: SurfaceOps<S>, s0: S, s1: S, normal: Vector3, it: Triple,
                                                   trials: nat, more: nat)
    requires trials <= more
    requires Run(so, s0, s1, normal, it, trials).Some?
    ensures Run(so, s0, s1, normal, it, more) == Run(so, s0, s1, normal, it, trials)
    decreases trials
  {
    if Step(so, s0, s1, normal, it).Moved? {
      MoreTrialsSameAnswer(so, s0, s1, normal, Step(so, s0, s1, normal, it).next, trials - 1, more - 1);
    }
  }

  /**
   * Surfaces with no pair of near points (two parallel planes further apart
   * than the tolerance, say) make the solver fail, whatever the start and budget.
   */
  lemma NoCommonPointNoAnswer<S>(so: SurfaceOps<S>, s0: S, hint0: Option<Param2>, s1: S, hint1: Option<Param2>,
                                 point: Point3, normal: Vector3, trials: nat)
    requires forall uv0, uv1 :: !Near(At(so, s0, uv0), At(so, s1, uv1))
    ensures Projection(so, s0, hint0, s1, hint1, point, normal, trials).None?
  {
  }
}
