/**
 * The small part of the linear algebra the intersection curve relies on:
 * three-dimensional points and vectors, column-major 3x3 and 4x4 matrices
 * (the layout of the `cgmath` types the source uses), the 3x3 inverse with
 * its singularity test, and the global `Tolerance::near` test.
 * Everything is over `real`; floating-point rounding is not modelled.
 */
module Linear {
  import opened Options

  datatype Vec3 = Vec3(x: real, y: real, z: real)

  /** A point and a vector have the same coordinates; the source converts freely between them. */
  type Point3 = Vec3
  type Vector3 = Vec3

  datatype Vec4 = Vec4(x: real, y: real, z: real, w: real)

  /** Column-major: `c0` is column 0, and `m[i][j]` of the source is component `j` of column `i`. */
  datatype Matrix3 = Matrix3(c0: Vec3, c1: Vec3, c2: Vec3)
  datatype Matrix4 = Matrix4(c0: Vec4, c1: Vec4, c2: Vec4, c3: Vec4)

  const Zero: Vec3 := Vec3(0.0, 0.0, 0.0)

  /** The global tolerance `TOLERANCE` of the kernel. */
  const TOLERANCE: real := 0.000001

  function Scale(a: Vec3, k: real): Vec3 { Vec3(a.x * k, a.y * k, a.z * k) }

  function Dot(a: Vec3, b: Vec3): real { a.x * b.x + a.y * b.y + a.z * b.z }

  function Cross(a: Vec3, b: Vec3): Vec3 {
    Vec3(a.y * b.z - a.z * b.y, a.z * b.x - a.x * b.z, a.x * b.y - a.y * b.x)
  }

  function Abs(r: real): real { if r < 0.0 then -r else r }

  /**
   * `Tolerance::near`: every coordinate differs by at most `TOLERANCE`
   * (an absolute-difference comparison, coordinate by coordinate).
   */
  predicate Near(a: Vec3, b: Vec3) {
    Abs(a.x - b.x) <= TOLERANCE && Abs(a.y - b.y) <= TOLERANCE && Abs(a.z - b.z) <= TOLERANCE
  }

  function FromCols(a: Vec3, b: Vec3, c: Vec3): Matrix3 { Matrix3(a, b, c) }

  function Transpose(m: Matrix3): Matrix3 {
    Matrix3(Vec3(m.c0.x, m.c1.x, m.c2.x), Vec3(m.c0.y, m.c1.y, m.c2.y), Vec3(m.c0.z, m.c1.z, m.c2.z))
  }

  /** Row `i` of `m`, as a vector. */
  function Row(m: Matrix3, i: nat): Vec3
    requires i < 3
  {
    if i == 0 then Vec3(m.c0.x, m.c1.x, m.c2.x)
    else if i == 1 then Vec3(m.c0.y, m.c1.y, m.c2.y)
    else Vec3(m.c0.z, m.c1.z, m.c2.z)
  }

  /** `m * v`: coordinate `i` is row `i` of `m` dotted with `v`. */
  function MulVec(m: Matrix3, v: Vec3): Vec3 {
    Vec3(Dot(Row(m, 0), v), Dot(Row(m, 1), v), Dot(Row(m, 2), v))
  }

  /** The triple product `a . (b x c)`. */
  function Determinant(m: Matrix3): real {
    Dot(Cross(m.c1, m.c2), m.c0)
  }

  /**
   * The 3x3 inverse: absent exactly when the determinant is zero, otherwise
   * the transpose of the matrix whose columns are the cross products of the
   * columns, divided by the determinant.
   */
  function Invert(m: Matrix3): (r: Option<Matrix3>)
    ensures r.None? <==> Determinant(m) == 0.0
  {
    var det := Determinant(m);
    if det == 0.0 then None
    else
      Some(Transpose(FromCols(Scale(Cross(m.c1, m.c2), 1.0 / det),
                              Scale(Cross(m.c2, m.c0), 1.0 / det),
                              Scale(Cross(m.c0, m.c1), 1.0 / det))))
  }

  /** Transposing a matrix built from columns makes those vectors its rows. */
  lemma TransposedColsAreRows(a: Vec3, b: Vec3, c: Vec3)
    ensures Row(Transpose(FromCols(a, b, c)), 0) == a
    ensures Row(Transpose(FromCols(a, b, c)), 1) == b
    ensures Row(Transpose(FromCols(a, b, c)), 2) == c
  {
  }

  /** Multiplying by the inverse solves the linear system: `m * (inv * b) == b`. */
  lemma InvertSolves(m: Matrix3, b: Vec3)
    requires Invert(m).Some?
    ensures MulVec(m, MulVec(Invert(m).value, b)) == b
  {
    var k := 1.0 / Determinant(m);
    InverseApplied(m, b, k);
    AdjugateSolvesSystem(m, b, k);
  }

  /** The adjugate applied to `b`, scaled by the reciprocal `k` of the determinant, solves `m * y == b`. */
  lemma AdjugateSolvesSystem(m: Matrix3, b: Vec3, k: real)
    requires Dot(Cross(m.c1, m.c2), m.c0) * k == 1.0
    ensures MulVec(m, Vec3(Dot(Cross(m.c1, m.c2), b) * k, Dot(Cross(m.c2, m.c0), b) * k, Dot(Cross(m.c0, m.c1), b) * k))
            == b
  {
    AdjugateSolves(m.c0, m.c1, m.c2, b, k);
    RowsSolve(m, Vec3(Dot(Cross(m.c1, m.c2), b) * k, Dot(Cross(m.c2, m.c0), b) * k, Dot(Cross(m.c0, m.c1), b) * k), b);
  }

  /** `m * y == b` when each row of `m` (read off its columns) dotted with `y` gives `b`. */
  lemma RowsSolve(m: Matrix3, y: Vec3, b: Vec3)
    requires Dot(Vec3(m.c0.x, m.c1.x, m.c2.x), y) == b.x
    requires Dot(Vec3(m.c0.y, m.c1.y, m.c2.y), y) == b.y
    requires Dot(Vec3(m.c0.z, m.c1.z, m.c2.z), y) == b.z
    ensures MulVec(m, y) == b
  {
  }

  /**
   * With `k` the reciprocal of the determinant of the matrix with columns
   * `p`, `q`, `r`, each row of that matrix against the adjugate applied to
   * `b` and scaled by `k` gives the matching coordinate of `b`.
   */
  lemma AdjugateSolves(p: Vec3, q: Vec3, r: Vec3, b: Vec3, k: real)
    requires Dot(Cross(q, r), p) * k == 1.0
    ensures Dot(Vec3(p.x, q.x, r.x), Vec3(Dot(Cross(q, r), b) * k, Dot(Cross(r, p), b) * k, Dot(Cross(p, q), b) * k))
            == b.x
    ensures Dot(Vec3(p.y, q.y, r.y), Vec3(Dot(Cross(q, r), b) * k, Dot(Cross(r, p), b) * k, Dot(Cross(p, q), b) * k))
            == b.y
    ensures Dot(Vec3(p.z, q.z, r.z), Vec3(Dot(Cross(q, r), b) * k, Dot(Cross(r, p), b) * k, Dot(Cross(p, q), b) * k))
            == b.z
  {
    var alpha, beta, gamma, det := Dot(Cross(q, r), b), Dot(Cross(r, p), b), Dot(Cross(p, q), b), Dot(Cross(q, r), p);
    AdjugateRows(p, q, r, b);
    SolveRow(p.x, q.x, r.x, alpha, beta, gamma, k, det, b.x);
    SolveRow(p.y, q.y, r.y, alpha, beta, gamma, k, det, b.y);
    SolveRow(p.z, q.z, r.z, alpha, beta, gamma, k, det, b.z);
  }

  /** A row equation `a*alpha + b*beta + c*gamma == x*det` divided through by `det`. */
  lemma SolveRow(a: real, b: real, c: real, alpha: real, beta: real, gamma: real, k: real, det: real, x: real)
    requires a * alpha + b * beta + c * gamma == x * det
    requires det * k == 1.0
    ensures Dot(Vec3(a, b, c), Vec3(alpha * k, beta * k, gamma * k)) == x
  {
  }

  /** `inv * b` is the adjugate applied to `b`, scaled by `k`, the reciprocal of the determinant. */
  lemma InverseApplied(m: Matrix3, b: Vec3, k: real)
    requires Invert(m).Some? && k == 1.0 / Determinant(m)
    ensures MulVec(Invert(m).value, b)
            == Vec3(Dot(Cross(m.c1, m.c2), b) * k, Dot(Cross(m.c2, m.c0), b) * k, Dot(Cross(m.c0, m.c1), b) * k)
  {
    var inv := Invert(m).value;
    assert Row(inv, 0) == Scale(Cross(m.c1, m.c2), k);
    assert Row(inv, 1) == Scale(Cross(m.c2, m.c0), k);
    assert Row(inv, 2) == Scale(Cross(m.c0, m.c1), k);
    DotScale(Cross(m.c1, m.c2), k, b);
    DotScale(Cross(m.c2, m.c0), k, b);
    DotScale(Cross(m.c0, m.c1), k, b);
    assert MulVec(inv, b) == Vec3(Dot(Row(inv, 0), b), Dot(Row(inv, 1), b), Dot(Row(inv, 2), b));
    assert Dot(Row(inv, 0), b) == Dot(Cross(m.c1, m.c2), b) * k;
    assert Dot(Row(inv, 1), b) == Dot(Cross(m.c2, m.c0), b) * k;
    assert Dot(Row(inv, 2), b) == Dot(Cross(m.c0, m.c1), b) * k;
  }

  lemma DotScale(a: Vec3, k: real, b: Vec3)
    ensures Dot(Scale(a, k), b) == Dot(a, b) * k
  {
  }

  /**
   * The adjugate identity for the matrix with columns `p`, `q`, `r`: the
   * rows of `m` against the cross products of its columns give `det * b`.
   */
  lemma AdjugateRows(p: Vec3, q: Vec3, r: Vec3, b: Vec3)
    ensures p.x * Dot(Cross(q, r), b) + q.x * Dot(Cross(r, p), b) + r.x * Dot(Cross(p, q), b)
            == b.x * Dot(Cross(q, r), p)
    ensures p.y * Dot(Cross(q, r), b) + q.y * Dot(Cross(r, p), b) + r.y * Dot(Cross(p, q), b)
            == b.y * Dot(Cross(q, r), p)
    ensures p.z * Dot(Cross(q, r), b) + q.z * Dot(Cross(r, p), b) + r.z * Dot(Cross(p, q), b)
            == b.z * Dot(Cross(q, r), p)
  {
    AdjugateFirstRow(p, q, r, b);
    AdjugateFirstRow(Rotate(p), Rotate(q), Rotate(r), Rotate(b));
    AdjugateFirstRow(Rotate(Rotate(p)), Rotate(Rotate(q)), Rotate(Rotate(r)), Rotate(Rotate(b)));
    TripleRotates(q, r, b);
    TripleRotates(r, p, b);
    TripleRotates(p, q, b);
    TripleRotates(q, r, p);
    TripleRotates(Rotate(q), Rotate(r), Rotate(b));
    TripleRotates(Rotate(r), Rotate(p), Rotate(b));
    TripleRotates(Rotate(p), Rotate(q), Rotate(b));
    TripleRotates(Rotate(q), Rotate(r), Rotate(p));
  }

  /** The coordinates shifted by one place. */
  function Rotate(a: Vec3): Vec3 { Vec3(a.y, a.z, a.x) }

  /** `(a x b) . c`, multiplied out. */
  function TripleProduct(a: Vec3, b: Vec3, c: Vec3): real {
    a.y * b.z * c.x - a.z * b.y * c.x + a.z * b.x * c.y - a.x * b.z * c.y + a.x * b.y * c.z - a.y * b.x * c.z
  }

  lemma TripleExpanded(a: Vec3, b: Vec3, c: Vec3)
    ensures Dot(Cross(a, b), c) == TripleProduct(a, b, c)
  {
  }

  /** The triple product does not change when every vector's coordinates are shifted. */
  lemma TripleRotates(a: Vec3, b: Vec3, c: Vec3)
    ensures Dot(Cross(Rotate(a), Rotate(b)), Rotate(c)) == Dot(Cross(a, b), c)
  {
    TripleExpanded(a, b, c);
    TripleExpanded(Rotate(a), Rotate(b), Rotate(c));
  }

  /** `s * ((a x b) . c)`, multiplied out. */
  function ScaledTriple(s: real, a: Vec3, b: Vec3, c: Vec3): real {
    s * a.y * b.z * c.x - s * a.z * b.y * c.x + s * a.z * b.x * c.y
    - s * a.x * b.z * c.y + s * a.x * b.y * c.z - s * a.y * b.x * c.z
  }

  lemma ScaledTripleExpanded(s: real, a: Vec3, b: Vec3, c: Vec3)
    ensures s * Dot(Cross(a, b), c) == ScaledTriple(s, a, b, c)
  {
  }

  lemma ScaledTripleSum(p: Vec3, q: Vec3, r: Vec3, b: Vec3)
    ensures ScaledTriple(p.x, q, r, b) + ScaledTriple(q.x, r, p, b) + ScaledTriple(r.x, p, q, b)
            == ScaledTriple(b.x, q, r, p)
  {
  }

  /** The first coordinate of the adjugate identity. */
  lemma AdjugateFirstRow(p: Vec3, q: Vec3, r: Vec3, b: Vec3)
    ensures p.x * Dot(Cross(q, r), b) + q.x * Dot(Cross(r, p), b) + r.x * Dot(Cross(p, q), b)
            == b.x * Dot(Cross(q, r), p)
  {
    ScaledTripleExpanded(p.x, q, r, b);
    ScaledTripleExpanded(q.x, r, p, b);
    ScaledTripleExpanded(r.x, p, q, b);
    ScaledTripleExpanded(b.x, q, r, p);
    ScaledTripleSum(p, q, r, b);
  }
}
