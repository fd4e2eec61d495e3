/**
 * The uniform ground-state relaxation of quickdisp/uniformgs.go: the small
 * 3-vector kernels (matvecmul, dot, cross, madd2, madd4, normalise), the
 * field, energy and non-precessional torque of a uniform magnetisation, the
 * time-step adaptation and the accept/reject rule of the RK23 step.
 */
module UniformGS {
  import opened Sums
  import opened Wrappers

  /** A [3]float64. */
  type Vec = v: seq<real> | |v| == 3 witness [0.0, 0.0, 0.0]

  /** A [3][3]float64, as its rows. */
  type Mat = m: seq<Vec> | |m| == 3 witness [Zero, Zero, Zero]

  const Zero: Vec := [0.0, 0.0, 0.0]

  /** The product of mat with v, each row accumulated in index order as dot does. */
  function MatVec(mat: Mat, v: Vec): Vec
  {
    [Dot(mat[0], v, 3), Dot(mat[1], v, 3), Dot(mat[2], v, 3)]
  }

  /** One component of madd2. */
  function Combine2(x: real, y: real, f1: real, f2: real): real
  {
    f1 * x + f2 * y
  }

  /** One component of madd4. */
  function Combine4(x1: real, x2: real, x3: real, x4: real, f1: real, f2: real, f3: real, f4: real): real
  {
    f1 * x1 + f2 * x2 + f3 * x3 + f4 * x4
  }

  /** f1*a + f2*b componentwise. */
  function Lin2(a: Vec, b: Vec, f1: real, f2: real): Vec
  {
    [Combine2(a[0], b[0], f1, f2), Combine2(a[1], b[1], f1, f2), Combine2(a[2], b[2], f1, f2)]
  }

  /** f1*a1 + f2*a2 + f3*a3 + f4*a4 componentwise. */
  function Lin4(a1: Vec, a2: Vec, a3: Vec, a4: Vec, f1: real, f2: real, f3: real, f4: real): Vec
  {
    [Combine4(a1[0], a2[0], a3[0], a4[0], f1, f2, f3, f4),
     Combine4(a1[1], a2[1], a3[1], a4[1], f1, f2, f3, f4),
     Combine4(a1[2], a2[2], a3[2], a4[2], f1, f2, f3, f4)]
  }

  /** cross(a, b): the vector product, orthogonal to both factors. */
  function Cross(a: Vec, b: Vec): (r: Vec)
    ensures Dot(r, a, 3) == 0.0 && Dot(r, b, 3) == 0.0
  {
    var r: Vec := [a[1] * b[2] - a[2] * b[1], a[2] * b[0] - a[0] * b[2], a[0] * b[1] - a[1] * b[0]];
    Dot3(r, a);
    Dot3(r, b);
    r
  }

  // ---------------------------------------------------------------------
  // The loops of the kernels.

  /** dot: the accumulation res += a[c]*b[c] for c = 0, 1, 2. */
  method DotLoop(a: Vec, b: Vec) returns (res: real)
    ensures res == Dot(a, b, 3)
    ensures res == Dot(b, a, 3)
  {
    res := 0.0;
    var c := 0;
    while c < 3
      invariant 0 <= c <= 3 && res == Dot(a, b, c)
    {
      DotStep(a, b, c, b[c]);
      res := res + a[c] * b[c];
      c := c + 1;
    }
    DotSymmetric(a, b, 3);
  }

  /** matvecmul: res[c] accumulates mat[c][c']*vec[c'] over c'. */
  method MatVecMul(mat: Mat, vec: Vec) returns (res: Vec)
    ensures res == MatVec(mat, vec)
  {
    res := [0.0, 0.0, 0.0];
    var c := 0;
    while c < 3
      invariant 0 <= c <= 3
      invariant forall t :: 0 <= t < c ==> res[t] == Dot(mat[t], vec, 3)
      invariant forall t :: c <= t < 3 ==> res[t] == 0.0
    {
      var c' := 0;
      while c' < 3
        invariant 0 <= c' <= 3
        invariant forall t :: 0 <= t < c ==> res[t] == Dot(mat[t], vec, 3)
        invariant res[c] == Dot(mat[c], vec, c')
        invariant forall t :: c < t < 3 ==> res[t] == 0.0
      {
        DotStep(mat[c], vec, c', vec[c']);
        res := res[c := res[c] + mat[c][c'] * vec[c']];
        c' := c' + 1;
      }
      c := c + 1;
    }
  }

  /** madd2: res[c] = f1*a[c] + f2*b[c]. */
  method Madd2(a: Vec, b: Vec, f1: real, f2: real) returns (res: Vec)
    ensures res == Lin2(a, b, f1, f2)
  {
    res := [0.0, 0.0, 0.0];
    var c := 0;
    while c < 3
      invariant 0 <= c <= 3 && forall t :: 0 <= t < c ==> res[t] == Combine2(a[t], b[t], f1, f2)
    {
      res := res[c := Combine2(a[c], b[c], f1, f2)];
      c := c + 1;
    }
    SameComponents(res, Lin2(a, b, f1, f2));
  }

  /** madd4: res[c] = f1*a1[c] + f2*a2[c] + f3*a3[c] + f4*a4[c]. */
  method Madd4(a1: Vec, a2: Vec, a3: Vec, a4: Vec, f1: real, f2: real, f3: real, f4: real) returns (res: Vec)
    ensures res == Lin4(a1, a2, a3, a4, f1, f2, f3, f4)
  {
    res := [0.0, 0.0, 0.0];
    var c := 0;
    while c < 3
      invariant 0 <= c <= 3
      invariant forall t :: 0 <= t < c ==> res[t] == Combine4(a1[t], a2[t], a3[t], a4[t], f1, f2, f3, f4)
    {
      res := res[c := Combine4(a1[c], a2[c], a3[c], a4[c], f1, f2, f3, f4)];
      c := c + 1;
    }
    SameComponents(res, Lin4(a1, a2, a3, a4, f1, f2, f3, f4));
  }

  /**
   * normalise: the vector divided by its Euclidean norm. The square root is
   * given as norm, a positive number whose square is the sum of squares;
   * the result has unit length.
   */
  method Normalise(v: Vec, norm: real) returns (out: Vec)
    requires norm > 0.0 && norm * norm == Dot(v, v, 3)
    ensures forall c :: 0 <= c < 3 ==> out[c] * norm == v[c]
    ensures Dot(out, out, 3) == 1.0
  {
    var sum := DotLoop(v, v);
    out := [0.0, 0.0, 0.0];
    var c := 0;
    while c < 3
      invariant 0 <= c <= 3 && forall t :: 0 <= t < c ==> out[t] == v[t] / norm
      invariant forall t :: c <= t < 3 ==> out[t] == 0.0
    {
      out := out[c := v[c] / norm];
      c := c + 1;
    }
    UnitAfterScaling(v, out, norm);
  }

  /** Dividing by the norm gives a unit vector. */
  lemma {:induction false} UnitAfterScaling(v: Vec, out: Vec, norm: real)
    requires norm > 0.0 && norm * norm == Dot(v, v, 3)
    requires forall c :: 0 <= c < 3 ==> out[c] == v[c] / norm
    ensures forall c :: 0 <= c < 3 ==> out[c] * norm == v[c]
    ensures Dot(out, out, 3) == 1.0
  {
    var q := 1.0 / norm;
    forall c | 0 <= c < 3
      ensures out[c] == q * v[c] + 0.0 * v[c] && out[c] * norm == v[c]
    {
      DivideBack(v[c], norm, q);
    }
    var a, b := Dot(out, v, 3), Dot(v, out, 3);
    DotLinear(out, out, q, v, 0.0, v, 3);
    assert Dot(out, out, 3) == q * a;
    DotSymmetric(out, v, 3);
    DotLinear(v, out, q, v, 0.0, v, 3);
    assert b == q * (norm * norm);
    InverseSquare(q, norm);
  }

  lemma {:induction false} DivideBack(x: real, norm: real, q: real)
    requires norm > 0.0 && q == 1.0 / norm
    ensures x / norm == q * x + 0.0 * x && (x / norm) * norm == x
  {
  }

  lemma {:induction false} InverseSquare(q: real, norm: real)
    requires norm > 0.0 && q == 1.0 / norm
    ensures q * (q * (norm * norm)) == 1.0
  {
    assert q * norm == 1.0;
    assert q * (q * (norm * norm)) == (q * norm) * (q * norm);
  }

  // ---------------------------------------------------------------------
  // Field, energy and torque of a uniform magnetisation.

  /** demag·m + uniAnis·m + zeeman. */
  function FieldOf(demag: Mat, uniAnis: Mat, zeeman: Vec, m: Vec): Vec
  {
    var d, k := MatVec(demag, m), MatVec(uniAnis, m);
    [d[0] + k[0] + zeeman[0], d[1] + k[1] + zeeman[1], d[2] + k[2] + zeeman[2]]
  }

  /** Two vectors with the same components are equal. */
  lemma {:induction false} SameComponents(u: Vec, v: Vec)
    requires u[0] == v[0] && u[1] == v[1] && u[2] == v[2]
    ensures u == v
  {
  }

  /** matvecmul is linear in the vector. */
  lemma {:induction false} MatVecLinear(mat: Mat, x: Vec, y: Vec, a: real, b: real)
    ensures MatVec(mat, Lin2(x, y, a, b)) == Lin2(MatVec(mat, x), MatVec(mat, y), a, b)
  {
    var l := Lin2(x, y, a, b);
    DotLinear(mat[0], l, a, x, b, y, 3);
    DotLinear(mat[1], l, a, x, b, y, 3);
    DotLinear(mat[2], l, a, x, b, y, 3);
    var mx, my := MatVec(mat, x), MatVec(mat, y);
    assert MatVec(mat, l)[0] == a * mx[0] + b * my[0];
    assert MatVec(mat, l)[1] == a * mx[1] + b * my[1];
    assert MatVec(mat, l)[2] == a * mx[2] + b * my[2];
    SameComponents(MatVec(mat, l), Lin2(mx, my, a, b));
  }

  /** The field is affine in m: it maps an affine combination of magnetisations to that combination of their fields. */
  lemma {:induction false} FieldAffine(demag: Mat, uniAnis: Mat, zeeman: Vec, x: Vec, y: Vec, a: real, b: real)
    requires a + b == 1.0
    ensures FieldOf(demag, uniAnis, zeeman, Lin2(x, y, a, b))
      == Lin2(FieldOf(demag, uniAnis, zeeman, x), FieldOf(demag, uniAnis, zeeman, y), a, b)
  {
    var l := Lin2(x, y, a, b);
    MatVecLinear(demag, x, y, a, b);
    MatVecLinear(uniAnis, x, y, a, b);
    var dx, dy, kx, ky := MatVec(demag, x), MatVec(demag, y), MatVec(uniAnis, x), MatVec(uniAnis, y);
    var fx, fy, fl := FieldOf(demag, uniAnis, zeeman, x), FieldOf(demag, uniAnis, zeeman, y), FieldOf(demag, uniAnis, zeeman, l);
    AffineSum(dx[0], dy[0], kx[0], ky[0], zeeman[0], a, b);
    AffineSum(dx[1], dy[1], kx[1], ky[1], zeeman[1], a, b);
    AffineSum(dx[2], dy[2], kx[2], ky[2], zeeman[2], a, b);
    SameComponents(fl, Lin2(fx, fy, a, b));
  }

  /** One component of the field of an affine combination. */
  lemma {:induction false} AffineSum(dx: real, dy: real, kx: real, ky: real, z: real, a: real, b: real)
    requires a + b == 1.0
    ensures Combine2(dx, dy, a, b) + Combine2(kx, ky, a, b) + z == Combine2(dx + kx + z, dy + ky + z, a, b)
  {
    assert z == a * z + b * z;
  }

  /** The energy splits into the demagnetising and anisotropy quadratic forms and the linear Zeeman term. */
  lemma {:induction false} EnergySplits(demag: Mat, uniAnis: Mat, zeeman: Vec, m: Vec)
    ensures -0.5 * Dot(m, FieldOf(demag, uniAnis, zeeman, m), 3)
      == -0.5 * Dot(m, MatVec(demag, m), 3) - 0.5 * Dot(m, MatVec(uniAnis, m), 3) - 0.5 * Dot(m, zeeman, 3)
  {
    var f := FieldOf(demag, uniAnis, zeeman, m);
    var dk := seq(3, c requires 0 <= c < 3 => MatVec(demag, m)[c] + MatVec(uniAnis, m)[c]);
    DotAdditive(f, dk, zeeman, m, 3);
    DotAdditive(dk, MatVec(demag, m), MatVec(uniAnis, m), m, 3);
    DotSymmetric(m, f, 3);
    DotSymmetric(zeeman, m, 3);
    DotSymmetric(MatVec(demag, m), m, 3);
    DotSymmetric(MatVec(uniAnis, m), m, 3);
  }

  /** The torque (m × B) × m vanishes when the field is parallel to m: the aligned states are the fixed points of the relaxation. */
  lemma {:induction false} TorqueVanishesWhenAligned(m: Vec, field: Vec, lambda: real)
    requires forall c :: 0 <= c < 3 ==> field[c] == lambda * m[c]
    ensures Cross(Cross(m, field), m) == [0.0, 0.0, 0.0]
  {
    assert m[1] * field[2] == m[2] * field[1] by { assert m[1] * (lambda * m[2]) == m[2] * (lambda * m[1]); }
    assert m[2] * field[0] == m[0] * field[2] by { assert m[2] * (lambda * m[0]) == m[0] * (lambda * m[2]); }
    assert m[0] * field[1] == m[1] * field[0] by { assert m[0] * (lambda * m[1]) == m[1] * (lambda * m[0]); }
    assert Cross(m, field) == [0.0, 0.0, 0.0];
  }

  /** The weights of the error estimate, third-order minus second-order solution. */
  const E1: real := (7.0 / 24.0) - (2.0 / 9.0)
  const E2: real := (1.0 / 4.0) - (1.0 / 3.0)
  const E3: real := (1.0 / 3.0) - (4.0 / 9.0)
  const E4: real := 1.0 / 8.0

  /** The weights of the error estimate sum to zero, so a constant torque has no error. */
  lemma {:induction false} ErrorOfConstantTorque(k: Vec)
    ensures Lin4(k, k, k, k, E1, E2, E3, E4) == [0.0, 0.0, 0.0]
  {
    assert E1 + E2 + E3 + E4 == 0.0;
    assert E1 * k[0] + E2 * k[0] + E3 * k[0] + E4 * k[0] == (E1 + E2 + E3 + E4) * k[0];
    assert E1 * k[1] + E2 * k[1] + E3 * k[1] + E4 * k[1] == (E1 + E2 + E3 + E4) * k[1];
    assert E1 * k[2] + E2 * k[2] + E3 * k[2] + E4 * k[2] == (E1 + E2 + E3 + E4) * k[2];
    SameComponents(Lin4(k, k, k, k, E1, E2, E3, E4), [0.0, 0.0, 0.0]);
  }

  /** The weights of the third-order solution sum to one: along a constant torque it advances by h times it. */
  lemma {:induction false} ThirdOrderConsistent(m0: Vec, k: Vec, h: real)
    ensures Lin4(m0, k, k, k, 1.0, (2.0 / 9.0) * h, (1.0 / 3.0) * h, (4.0 / 9.0) * h) == Lin2(m0, k, 1.0, h)
  {
    assert (2.0 / 9.0) * h * k[0] + (1.0 / 3.0) * h * k[0] + (4.0 / 9.0) * h * k[0] == h * k[0];
    assert (2.0 / 9.0) * h * k[1] + (1.0 / 3.0) * h * k[1] + (4.0 / 9.0) * h * k[1] == h * k[1];
    assert (2.0 / 9.0) * h * k[2] + (1.0 / 3.0) * h * k[2] + (4.0 / 9.0) * h * k[2] == h * k[2];
    SameComponents(Lin4(m0, k, k, k, 1.0, (2.0 / 9.0) * h, (1.0 / 3.0) * h, (4.0 / 9.0) * h), Lin2(m0, k, 1.0, h));
  }

  // ---------------------------------------------------------------------
  // Time-step adaptation.

  /** The engine settings the step reads: MaxErr, MinDt, MaxDt and Headroom. */
  datatype Settings = Settings(maxErr: real, minDt: real, maxDt: real, headroom: real)

  /** The correction of adaptDt: NaN (None) counts as 1; times Headroom, clamped to [0.5, 2]. */
  function Correction(corr: Option<real>, headroom: real): (c: real)
    ensures 0.5 <= c <= 2.0
    ensures corr.Some? && 0.5 <= corr.value * headroom <= 2.0 ==> c == corr.value * headroom
    ensures corr.None? && 0.5 <= headroom <= 2.0 ==> c == headroom
  {
    var c0 := if corr.None? then 1.0 else corr.value;
    var c1 := c0 * headroom;
    if c1 > 2.0 then 2.0 else if c1 < 0.5 then 0.5 else c1
  }

  /** A NaN correction is treated as 1. */
  lemma {:induction false} CorrectionOfNaN(headroom: real)
    ensures Correction(None, headroom) == Correction(Some(1.0), headroom)
  {
  }

  lemma {:induction false} ScaleBetween(dt: real, c: real)
    requires dt >= 0.0 && 0.5 <= c <= 2.0
    ensures 0.5 * dt <= dt * c <= 2.0 * dt
  {
    assert dt * c - 0.5 * dt == dt * (c - 0.5);
    assert 2.0 * dt - dt * c == dt * (2.0 - c);
  }

  /** dt *= corr: a clamped correction changes a non-negative step by a factor between 1/2 and 2. */
  function Scale(dt: real, c: real): (d: real)
    ensures dt >= 0.0 && 0.5 <= c <= 2.0 ==> 0.5 * dt <= d <= 2.0 * dt
  {
    if dt >= 0.0 && 0.5 <= c <= 2.0 then ScaleBetween(dt, c); dt * c else dt * c
  }

  /** The MinDt and MaxDt bounds of adaptDt: a non-zero MinDt raises, then a non-zero MaxDt lowers. */
  function Bounded(d: real, s: Settings): (r: real)
    ensures s.maxDt != 0.0 ==> r <= s.maxDt
    ensures s.minDt != 0.0 && (s.maxDt == 0.0 || s.minDt <= s.maxDt) ==> s.minDt <= r
    ensures s.minDt == 0.0 && s.maxDt == 0.0 ==> r == d
    ensures (s.minDt == 0.0 || s.minDt <= d) && (s.maxDt == 0.0 || d <= s.maxDt) ==> r == d
  {
    var d1 := if s.minDt != 0.0 && d < s.minDt then s.minDt else d;
    if s.maxDt != 0.0 && d1 > s.maxDt then s.maxDt else d1
  }

  /** adaptDt: the step times the correction, within the MinDt and MaxDt bounds. */
  function AdaptDt(dt: real, corr: Option<real>, s: Settings): (r: real)
    ensures s.maxDt != 0.0 ==> r <= s.maxDt
    ensures s.minDt != 0.0 && (s.maxDt == 0.0 || s.minDt <= s.maxDt) ==> s.minDt <= r
    ensures s.minDt == 0.0 && s.maxDt == 0.0 && dt >= 0.0 ==> 0.5 * dt <= r <= 2.0 * dt
  {
    Bounded(Scale(dt, Correction(corr, s.headroom)), s)
  }

  lemma {:induction false} CorrectionMonotone(c: real, c': real, headroom: real)
    requires headroom >= 0.0 && c <= c'
    ensures Correction(Some(c), headroom) <= Correction(Some(c'), headroom)
  {
    assert c' * headroom - c * headroom == (c' - c) * headroom;
    assert (c' - c) * headroom >= 0.0;
    var a, a' := c * headroom, c' * headroom;
    assert Correction(Some(c), headroom) == if a > 2.0 then 2.0 else if a < 0.5 then 0.5 else a;
    assert Correction(Some(c'), headroom) == if a' > 2.0 then 2.0 else if a' < 0.5 then 0.5 else a';
  }

  lemma {:induction false} ScaleMonotone(dt: real, k: real, k': real)
    requires dt >= 0.0 && k <= k'
    ensures Scale(dt, k) <= Scale(dt, k')
  {
    assert dt * k' - dt * k == dt * (k' - k);
    assert dt * (k' - k) >= 0.0;
    assert Scale(dt, k) == dt * k && Scale(dt, k') == dt * k';
  }

  lemma {:induction false} BoundedMonotone(d: real, d': real, s: Settings)
    requires d <= d'
    ensures Bounded(d, s) <= Bounded(d', s)
  {
  }

  /** A larger correction never gives a shorter step. */
  lemma {:induction false} AdaptDtMonotone(dt: real, c: real, c': real, s: Settings)
    requires dt >= 0.0 && s.headroom >= 0.0 && c <= c'
    ensures AdaptDt(dt, Some(c), s) <= AdaptDt(dt, Some(c'), s)
  {
    var k, k' := Correction(Some(c), s.headroom), Correction(Some(c'), s.headroom);
    CorrectionMonotone(c, c', s.headroom);
    ScaleMonotone(dt, k, k');
    BoundedMonotone(Scale(dt, k), Scale(dt, k'), s);
  }

  /**
   * The state of AssumeUniform: the demagnetising and anisotropy matrices
   * and the Zeeman vector, fixed when it is built, and the step size dtsi.
   */
  class AssumeUniform {
    const demagMatrix: Mat
    const uniAnisMatrix: Mat
    const zeemanVector: Vec
    var dtsi: real

    /** NewAssumeUniform with the matrices and vector it reads from the engine; dtsi starts at zero. */
    constructor (demag: Mat, uniAnis: Mat, zeeman: Vec)
      ensures demagMatrix == demag && uniAnisMatrix == uniAnis && zeemanVector == zeeman && dtsi == 0.0
    {
      demagMatrix, uniAnisMatrix, zeemanVector := demag, uniAnis, zeeman;
      dtsi := 0.0;
    }

    method Demag(m: Vec) returns (b: Vec)
      ensures b == MatVec(demagMatrix, m)
    {
      b := MatVecMul(demagMatrix, m);
    }

    method UniAnis(m: Vec) returns (b: Vec)
      ensures b == MatVec(uniAnisMatrix, m)
    {
      b := MatVecMul(uniAnisMatrix, m);
    }

    /** Field: the sum of the three parts, component by component. */
    method Field(m: Vec) returns (b: Vec)
      ensures b == FieldOf(demagMatrix, uniAnisMatrix, zeemanVector, m)
    {
      var demag := Demag(m);
      var uniAnis := UniAnis(m);
      var zeeman := zeemanVector;
      b := [0.0, 0.0, 0.0];
      var c := 0;
      while c < 3
        invariant 0 <= c <= 3 && forall t :: 0 <= t < c ==> b[t] == demag[t] + uniAnis[t] + zeeman[t]
      {
        b := b[c := demag[c] + uniAnis[c] + zeeman[c]];
        c := c + 1;
      }
    }

    /** Energy: -1/2 m·B(m), the two quadratic forms and the Zeeman term. */
    method Energy(m: Vec) returns (e: real)
      ensures e == -0.5 * Dot(m, FieldOf(demagMatrix, uniAnisMatrix, zeemanVector, m), 3)
      ensures e == -0.5 * Dot(m, MatVec(demagMatrix, m), 3) - 0.5 * Dot(m, MatVec(uniAnisMatrix, m), 3) - 0.5 * Dot(m, zeemanVector, 3)
    {
      var b := Field(m);
      var d := DotLoop(m, b);
      e := -0.5 * d;
      EnergySplits(demagMatrix, uniAnisMatrix, zeemanVector, m);
    }

    /** torqueNP: (m × B) × m, the torque without precession; it is orthogonal to m and vanishes when B is parallel to m. */
    method TorqueNP(m: Vec) returns (t: Vec)
      ensures t == Cross(Cross(m, FieldOf(demagMatrix, uniAnisMatrix, zeemanVector, m)), m)
      ensures Dot(t, m, 3) == 0.0
    {
      var field := Field(m);
      t := Cross(Cross(m, field), m);
    }

    /** The error estimate of the step: madd4 of the four torques with the embedded weights. */
    method ErrorVector(k1: Vec, k2: Vec, k3: Vec, k4: Vec) returns (err: Vec)
      ensures err == Lin4(k1, k2, k3, k4, E1, E2, E3, E4)
      ensures k1 == k2 == k3 == k4 ==> err == [0.0, 0.0, 0.0]
    {
      err := Madd4(k1, k2, k3, k4, E1, E2, E3, E4);
      if k1 == k2 == k3 == k4 {
        ErrorOfConstantTorque(k1);
      }
    }

    /**
     * The accept/reject rule of Step, given the trial (m3, k4), the error
     * norm err and math.Pow(MaxErr/err, 1/3) and (.., 1/4) as pow3 and pow4
     * (None for NaN). The step is accepted when err < MaxErr or dtsi is
     * already at most MinDt; either way dtsi is adapted.
     */
    method Step(m0: Vec, k1: Vec, m3: Vec, k4: Vec, err: real, pow3: Option<real>, pow4: Option<real>, s: Settings)
      returns (m: Vec, k: Vec)
      modifies this
      ensures (err < s.maxErr || old(dtsi) <= s.minDt) ==> m == m3 && k == k4 && dtsi == AdaptDt(old(dtsi), pow3, s)
      ensures !(err < s.maxErr || old(dtsi) <= s.minDt) ==> m == m0 && k == k1 && dtsi == AdaptDt(old(dtsi), pow4, s)
    {
      if err < s.maxErr || dtsi <= s.minDt {
        dtsi := AdaptDt(dtsi, pow3, s);
        return m3, k4;
      } else {
        dtsi := AdaptDt(dtsi, pow4, s);
        return m0, k1;
      }
    }
  }
}
