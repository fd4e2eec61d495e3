/**
 * The 3x3 matrices of the rotation-to-z reduction (mag/projection.go,
 * solver/rotatedtoz.go): the per-cell rotation R_r that takes the ground
 * state moment m_r to z, and the two products the block transform uses.
 */
module Matrices {
  import opened Sums

  predicate IsMat3(a: seq<seq<real>>)
  {
    |a| == 3 && forall p :: 0 <= p < 3 ==> |a[p]| == 3
  }

  /** One 3x3 matrix per cell. */
  predicate Mats(rs: seq<seq<seq<real>>>, n: nat)
  {
    |rs| == n && forall r :: 0 <= r < n ==> IsMat3(rs[r])
  }

  /** Column q of a 3x3 matrix. */
  function ColumnOf(b: seq<seq<real>>, q: nat): (col: seq<real>)
    requires IsMat3(b) && q < 3
    ensures |col| == 3
  {
    seq(3, k requires 0 <= k < 3 => b[k][q])
  }

  /** a * b, entry (p, q) accumulated as a[p][0]*b[0][q] + a[p][1]*b[1][q] + a[p][2]*b[2][q]. */
  function LeftMul(a: seq<seq<real>>, b: seq<seq<real>>): (c: seq<seq<real>>)
    requires IsMat3(a) && IsMat3(b)
    ensures IsMat3(c)
  {
    seq(3, p requires 0 <= p < 3 => seq(3, q requires 0 <= q < 3 => Dot(a[p], ColumnOf(b, q), 3)))
  }

  /** b * a^T, entry (p, q) accumulated as a[q][0]*b[p][0] + a[q][1]*b[p][1] + a[q][2]*b[p][2]. */
  function RightMulT(b: seq<seq<real>>, a: seq<seq<real>>): (c: seq<seq<real>>)
    requires IsMat3(a) && IsMat3(b)
    ensures IsMat3(c)
  {
    seq(3, p requires 0 <= p < 3 => seq(3, q requires 0 <= q < 3 => Dot(a[q], b[p], 3)))
  }

  lemma {:induction false} AssociativeEntry(a0: real, a1: real, a2: real, c0: real, c1: real, c2: real,
                         b00: real, b01: real, b02: real, b10: real, b11: real, b12: real,
                         b20: real, b21: real, b22: real)
    ensures 0.0 + a0 * (0.0 + c0 * b00 + c1 * b01 + c2 * b02) + a1 * (0.0 + c0 * b10 + c1 * b11 + c2 * b12)
        + a2 * (0.0 + c0 * b20 + c1 * b21 + c2 * b22)
      == 0.0 + c0 * (0.0 + a0 * b00 + a1 * b10 + a2 * b20) + c1 * (0.0 + a0 * b01 + a1 * b11 + a2 * b21)
        + c2 * (0.0 + a0 * b02 + a1 * b12 + a2 * b22)
  {
  }

  /** Entry (p, q) of the two products, written out term by term. */
  lemma {:induction false} AssociativeAt(a: seq<seq<real>>, b: seq<seq<real>>, c: seq<seq<real>>, p: nat, q: nat)
    requires IsMat3(a) && IsMat3(b) && IsMat3(c) && p < 3 && q < 3
    ensures LeftMul(a, RightMulT(b, c))[p][q] == RightMulT(LeftMul(a, b), c)[p][q]
  {
    LeftExpanded(a, b, c, p, q);
    RightExpanded(a, b, c, p, q);
    AssociativeEntry(a[p][0], a[p][1], a[p][2], c[q][0], c[q][1], c[q][2],
      b[0][0], b[0][1], b[0][2], b[1][0], b[1][1], b[1][2], b[2][0], b[2][1], b[2][2]);
  }

  /** Entry (p, q) of a * (b * c^T), term by term. */
  lemma {:induction false} LeftExpanded(a: seq<seq<real>>, b: seq<seq<real>>, c: seq<seq<real>>, p: nat, q: nat)
    requires IsMat3(a) && IsMat3(b) && IsMat3(c) && p < 3 && q < 3
    ensures LeftMul(a, RightMulT(b, c))[p][q]
      == 0.0 + a[p][0] * (0.0 + c[q][0] * b[0][0] + c[q][1] * b[0][1] + c[q][2] * b[0][2])
        + a[p][1] * (0.0 + c[q][0] * b[1][0] + c[q][1] * b[1][1] + c[q][2] * b[1][2])
        + a[p][2] * (0.0 + c[q][0] * b[2][0] + c[q][1] * b[2][1] + c[q][2] * b[2][2])
  {
    var col := ColumnOf(RightMulT(b, c), q);
    assert LeftMul(a, RightMulT(b, c))[p][q] == Dot(a[p], col, 3);
    Dot3(a[p], col);
    Dot3(c[q], b[0]);
    Dot3(c[q], b[1]);
    Dot3(c[q], b[2]);
    assert col[0] == Dot(c[q], b[0], 3) && col[1] == Dot(c[q], b[1], 3) && col[2] == Dot(c[q], b[2], 3);
  }

  /** Entry (p, q) of (a * b) * c^T, term by term. */
  lemma {:induction false} RightExpanded(a: seq<seq<real>>, b: seq<seq<real>>, c: seq<seq<real>>, p: nat, q: nat)
    requires IsMat3(a) && IsMat3(b) && IsMat3(c) && p < 3 && q < 3
    ensures RightMulT(LeftMul(a, b), c)[p][q]
      == 0.0 + c[q][0] * (0.0 + a[p][0] * b[0][0] + a[p][1] * b[1][0] + a[p][2] * b[2][0])
        + c[q][1] * (0.0 + a[p][0] * b[0][1] + a[p][1] * b[1][1] + a[p][2] * b[2][1])
        + c[q][2] * (0.0 + a[p][0] * b[0][2] + a[p][1] * b[1][2] + a[p][2] * b[2][2])
  {
    var row := LeftMul(a, b)[p];
    assert RightMulT(LeftMul(a, b), c)[p][q] == Dot(c[q], row, 3);
    Dot3(c[q], row);
    assert ColumnOf(b, 0) == [b[0][0], b[1][0], b[2][0]] && ColumnOf(b, 1) == [b[0][1], b[1][1], b[2][1]]
      && ColumnOf(b, 2) == [b[0][2], b[1][2], b[2][2]];
    Dot3(a[p], ColumnOf(b, 0));
    Dot3(a[p], ColumnOf(b, 1));
    Dot3(a[p], ColumnOf(b, 2));
    assert row[0] == Dot(a[p], ColumnOf(b, 0), 3) && row[1] == Dot(a[p], ColumnOf(b, 1), 3) && row[2] == Dot(a[p], ColumnOf(b, 2), 3);
  }

  /** The order of the two multiplications does not matter: a * (b * c^T) == (a * b) * c^T. */
  lemma {:induction false} Associative(a: seq<seq<real>>, b: seq<seq<real>>, c: seq<seq<real>>)
    requires IsMat3(a) && IsMat3(b) && IsMat3(c)
    ensures LeftMul(a, RightMulT(b, c)) == RightMulT(LeftMul(a, b), c)
  {
    var lhs, rhs := LeftMul(a, RightMulT(b, c)), RightMulT(LeftMul(a, b), c);
    forall p, q | 0 <= p < 3 && 0 <= q < 3 ensures lhs[p][q] == rhs[p][q] {
      AssociativeAt(a, b, c, p, q);
    }
    assert forall p :: 0 <= p < 3 ==> lhs[p] == rhs[p];
  }

  // ---------------------------------------------------------------------
  // The rotation of InitRotation.

  /** Rows (Cth*Cph, Cth*Sph, -Sth), (-Sph, Cph, 0), (Sth*Cph, Sth*Sph, Cth). */
  function RotationFrom(cth: real, sth: real, cph: real, sph: real): (a: seq<seq<real>>)
    ensures IsMat3(a)
  {
    [[cth * cph, cth * sph, -sth], [-sph, cph, 0.0], [sth * cph, sth * sph, cth]]
  }

  /**
   * The rotation for moment (mx, my, mz): Cth = mz, Cph = mx/Sth, Sph = my/Sth.
   * Sth = sqrt(1 - mz^2) is supplied; Sth == 0 (m along z) is not handled.
   */
  function RotationMatrix(mx: real, my: real, mz: real, sth: real): (a: seq<seq<real>>)
    requires sth != 0.0
    ensures IsMat3(a)
  {
    RotationFrom(mz, sth, mx / sth, my / sth)
  }

  /** A unit moment with Sth^2 == 1 - mz^2 and Sth != 0. */
  predicate Tilted(mx: real, my: real, mz: real, sth: real)
  {
    mx * mx + my * my + mz * mz == 1.0 && sth != 0.0 && sth * sth == 1.0 - mz * mz
  }

  /** Two angles: Cth^2 + Sth^2 == 1 and Cph^2 + Sph^2 == 1. */
  predicate Angles(cth: real, sth: real, cph: real, sph: real)
  {
    cth * cth + sth * sth == 1.0 && cph * cph + sph * sph == 1.0
  }

  lemma {:induction false} DivideOut(x: real, s: real)
    requires s != 0.0
    ensures s * (x / s) == x
  {
  }

  lemma {:induction false} CancelSquare(s: real, u: real)
    requires s != 0.0 && s * s * u == s * s
    ensures u == 1.0
  {
    assert s * s * (u - 1.0) == 0.0;
    assert s * s != 0.0;
  }

  /** A tilted moment is (Sth*Cph, Sth*Sph, Cth) for two angles. */
  lemma {:induction false} TiltedAngles(mx: real, my: real, mz: real, sth: real)
    requires Tilted(mx, my, mz, sth)
    ensures Angles(mz, sth, mx / sth, my / sth)
    ensures mx == sth * (mx / sth) && my == sth * (my / sth)
  {
    var cph, sph := mx / sth, my / sth;
    DivideOut(mx, sth);
    DivideOut(my, sth);
    calc {
      sth * sth * (cph * cph + sph * sph);
      (sth * cph) * (sth * cph) + (sth * sph) * (sth * sph);
      mx * mx + my * my;
      sth * sth;
    }
    CancelSquare(sth, cph * cph + sph * sph);
  }

  lemma {:induction false} WeightedUnit(w: real, s: real, c: real, d: real)
    requires c * c + d * d == 1.0
    ensures w * c * (s * c) + w * d * (s * d) == w * s
  {
    calc {
      w * c * (s * c) + w * d * (s * d);
      w * s * (c * c + d * d);
      w * s;
    }
  }

  /** The product of two explicit rows. */
  lemma {:induction false} RowDot(a0: real, a1: real, a2: real, b0: real, b1: real, b2: real, x: real)
    requires 0.0 + a0 * b0 + a1 * b1 + a2 * b2 == x
    ensures Dot([a0, a1, a2], [b0, b1, b2], 3) == x
  {
    Dot3([a0, a1, a2], [b0, b1, b2]);
  }

  /** Two rows of the rotation, written out: 1.0 for a row with itself, 0.0 for two different rows. */
  lemma {:induction false} RowPair(cth: real, sth: real, cph: real, sph: real, p: nat, q: nat)
    requires Angles(cth, sth, cph, sph) && p < 3 && q < 3
    ensures var a := [[cth * cph, cth * sph, -sth], [-sph, cph, 0.0], [sth * cph, sth * sph, cth]];
      Dot(a[p], a[q], 3) == if p == q then 1.0 else 0.0
  {
    if p == 0 && q == 0 {
      WeightedUnit(cth, cth, cph, sph);
      RowDot(cth * cph, cth * sph, -sth, cth * cph, cth * sph, -sth, 1.0);
    } else if p == 0 && q == 1 {
      RowDot(cth * cph, cth * sph, -sth, -sph, cph, 0.0, 0.0);
    } else if p == 0 && q == 2 {
      WeightedUnit(cth, sth, cph, sph);
      RowDot(cth * cph, cth * sph, -sth, sth * cph, sth * sph, cth, 0.0);
    } else if p == 1 && q == 0 {
      RowDot(-sph, cph, 0.0, cth * cph, cth * sph, -sth, 0.0);
    } else if p == 1 && q == 1 {
      RowDot(-sph, cph, 0.0, -sph, cph, 0.0, 1.0);
    } else if p == 1 && q == 2 {
      RowDot(-sph, cph, 0.0, sth * cph, sth * sph, cth, 0.0);
    } else if p == 2 && q == 0 {
      WeightedUnit(sth, cth, cph, sph);
      RowDot(sth * cph, sth * sph, cth, cth * cph, cth * sph, -sth, 0.0);
    } else if p == 2 && q == 1 {
      RowDot(sth * cph, sth * sph, cth, -sph, cph, 0.0, 0.0);
    } else {
      WeightedUnit(sth, sth, cph, sph);
      RowDot(sth * cph, sth * sph, cth, sth * cph, sth * sph, cth, 1.0);
    }
  }

  /** The rows of the rotation are orthonormal. */
  lemma {:induction false} RotationFromOrthonormal(cth: real, sth: real, cph: real, sph: real, p: nat, q: nat)
    requires Angles(cth, sth, cph, sph) && p < 3 && q < 3
    ensures Dot(RotationFrom(cth, sth, cph, sph)[p], RotationFrom(cth, sth, cph, sph)[q], 3) == if p == q then 1.0 else 0.0
  {
    RowPair(cth, sth, cph, sph, p, q);
  }

  /** The rotation takes its third row (Sth*Cph, Sth*Sph, Cth) to z. */
  lemma {:induction false} RotationFromAligns(cth: real, sth: real, cph: real, sph: real, p: nat)
    requires Angles(cth, sth, cph, sph) && p < 3
    ensures Dot(RotationFrom(cth, sth, cph, sph)[p], RotationFrom(cth, sth, cph, sph)[2], 3) == if p == 2 then 1.0 else 0.0
  {
    RotationFromOrthonormal(cth, sth, cph, sph, p, 2);
  }

  /** The third row of R_r is m_r itself. */
  lemma {:induction false} RotationThirdRow(mx: real, my: real, mz: real, sth: real)
    requires Tilted(mx, my, mz, sth)
    ensures var row := RotationMatrix(mx, my, mz, sth)[2]; row[0] == mx && row[1] == my && row[2] == mz
  {
    TiltedAngles(mx, my, mz, sth);
  }

  /** R_r m_r == (0, 0, 1). */
  lemma {:induction false} RotationAligns(mx: real, my: real, mz: real, sth: real, p: nat)
    requires Tilted(mx, my, mz, sth) && p < 3
    ensures Dot(RotationMatrix(mx, my, mz, sth)[p], [mx, my, mz], 3) == if p == 2 then 1.0 else 0.0
  {
    TiltedAngles(mx, my, mz, sth);
    RotationThirdRow(mx, my, mz, sth);
    var a := RotationMatrix(mx, my, mz, sth);
    RotationFromAligns(mz, sth, mx / sth, my / sth, p);
    DotCongruent(a[p], a[2], a[p], [mx, my, mz], 3);
  }

  /** The rows of R_r are orthonormal. */
  lemma {:induction false} RotationOrthonormal(mx: real, my: real, mz: real, sth: real, p: nat, q: nat)
    requires Tilted(mx, my, mz, sth) && p < 3 && q < 3
    ensures Dot(RotationMatrix(mx, my, mz, sth)[p], RotationMatrix(mx, my, mz, sth)[q], 3) == if p == q then 1.0 else 0.0
  {
    TiltedAngles(mx, my, mz, sth);
    RotationFromOrthonormal(mz, sth, mx / sth, my / sth, p, q);
  }

  /** Rows with unit length that are pairwise perpendicular. */
  predicate Orthonormal(a: seq<seq<real>>)
    requires IsMat3(a)
  {
    forall p, q :: 0 <= p < 3 && 0 <= q < 3 ==> Dot(a[p], a[q], 3) == if p == q then 1.0 else 0.0
  }

  /** R_r for a tilted unit moment is orthonormal, and its first two rows are perpendicular to m_r. */
  lemma {:induction false} RotationIsOrthonormal(mx: real, my: real, mz: real, sth: real)
    requires Tilted(mx, my, mz, sth)
    ensures Orthonormal(RotationMatrix(mx, my, mz, sth))
    ensures forall p :: 0 <= p < 3 ==> Dot(RotationMatrix(mx, my, mz, sth)[p], [mx, my, mz], 3) == if p == 2 then 1.0 else 0.0
  {
    forall p, q | 0 <= p < 3 && 0 <= q < 3
      ensures Dot(RotationMatrix(mx, my, mz, sth)[p], RotationMatrix(mx, my, mz, sth)[q], 3) == if p == q then 1.0 else 0.0
    {
      RotationOrthonormal(mx, my, mz, sth, p, q);
    }
    forall p | 0 <= p < 3 ensures Dot(RotationMatrix(mx, my, mz, sth)[p], [mx, my, mz], 3) == if p == 2 then 1.0 else 0.0 {
      RotationAligns(mx, my, mz, sth, p);
    }
  }
}
