/**
 * The RotatedToZ solver of solver/rotatedtoz.go. It rotates the linear
 * Hamiltonian so that the ground state is z at every cell, crosses it with z
 * there, and turns each 2-component eigenvector back into a 3-component mode.
 *
 * The solver's rotations, tensors and modes put their cells in x,y,z order
 * (index (i*Ny + j)*Nz + k, the nesting [i][j][k] of mag/tensor.go). The host
 * copy of the magnetisation is a mumax slice, so its cells are in z,y,x order.
 * A mode [c][i][j][k] is the flat sequence with component c of cell r at c*N + r.
 */
module RotatedSolver {
  import opened Arith
  import opened Grid
  import opened Sums
  import opened Complexes
  import opened Wrappers
  import opened Tensors
  import opened Matrices
  import opened Congruence
  import opened Dynamics
  import opened Projection

  // ---------------------------------------------------------------------
  // magCross: the cross product with z in the rotated frame.

  /** Row 0 of the result is minus row 1 of the input, row 1 is row 0, row 2 is zero. */
  function CrossValue(sh: Shape, s: seq<real>, e: Entry): real
    requires sh.nComp == 3 && Fits(sh, s) && InShape(sh, e)
  {
    if e.c == 0 then -At(sh, s, Entry(1, e.c_, e.r, e.r'))
    else if e.c == 1 then At(sh, s, Entry(0, e.c_, e.r, e.r'))
    else 0.0
  }

  /** The contents of magCross(t) for a tensor with contents s. */
  function MagCrossed(sh: Shape, s: seq<real>): (w: seq<real>)
    requires sh.nComp == 3 && Fits(sh, s)
    ensures Fits(sh, w)
  {
    seq(sh.Len(), p requires 0 <= p < sh.Len() => CrossValue(sh, s, EntryAt(sh, p)))
  }

  lemma {:induction false} MagCrossedAt(sh: Shape, s: seq<real>, e: Entry)
    requires sh.nComp == 3 && Fits(sh, s) && InShape(sh, e)
    ensures At(sh, MagCrossed(sh, s), e) == CrossValue(sh, s, e)
  {
    EntryAtOffset(sh, e);
  }

  /**
   * Crossing with z twice is minus the identity on the plane: rows 0 and 1
   * come back negated and row 2 is zero.
   */
  lemma {:induction false} MagCrossTwice(sh: Shape, s: seq<real>, e: Entry)
    requires sh.nComp == 3 && Fits(sh, s) && InShape(sh, e)
    ensures At(sh, MagCrossed(sh, MagCrossed(sh, s)), e) == if e.c < 2 then -At(sh, s, e) else 0.0
  {
    MagCrossedAt(sh, MagCrossed(sh, s), e);
    if e.c == 0 {
      MagCrossedAt(sh, s, Entry(1, e.c_, e.r, e.r'));
    } else if e.c == 1 {
      MagCrossedAt(sh, s, Entry(0, e.c_, e.r, e.r'));
    }
  }

  /** magCross is the rotated dynamic operator with gamma = 1 and Ms = 1 in every cell. */
  lemma {:induction false} CrossIsUnitRotated(sh: Shape, s: seq<real>, e: Entry)
    requires sh.nComp == 3 && Fits(sh, s) && InShape(sh, e)
    ensures RotInputs(sh, s, seq(sh.N(), r => 1.0))
    ensures RotEntry(sh, s, seq(sh.N(), r => 1.0), 1.0, e) == CrossValue(sh, s, e)
  {
  }

  // ---------------------------------------------------------------------
  // The reshape of an eigenvector into a 2-component mode.

  /** The column the Solve loop reads for component c of cell (i, j, k). */
  function ModeIndex(sz: Size, c: nat, x: Cell): nat
  {
    c * sz.nx * sz.ny * sz.nz + x.i * sz.nz * sz.ny + x.j * sz.nz + x.k
  }

  /** That column is c*N plus the x,y,z index of the cell, so the reshape is a bijection onto [0, 2N). */
  lemma {:induction false} ModeIndexLayout(sz: Size, c: nat, x: Cell)
    requires InGrid(sz, x)
    ensures ModeIndex(sz, c, x) == ComponentIndex(XYZ, sz, c, x)
  {
    CellIndexExpanded(XYZ, sz, x);
    assert x.i * sz.nz * sz.ny == sz.ny * sz.nz * x.i;
    assert c * sz.nx * sz.ny * sz.nz == c * sz.Cells();
  }

  /**
   * The c, i, j, k loop of Solve for one eigenvector: mode[c][i][j][k] takes
   * the entry at ModeIndex, which lays the vector out unchanged.
   */
  method ReshapeMode(vec: seq<Complex>, sz: Size) returns (mode: seq<Complex>)
    requires |vec| == 2 * sz.Cells()
    ensures mode == vec
  {
    var n := sz.Cells();
    mode := [];
    var c := 0;
    while c < 2
      invariant 0 <= c <= 2 && mode == vec[..c * n]
    {
      var r := 0;
      while r < n
        invariant 0 <= r <= n && mode == vec[..c * n + r]
      {
        var x := CellAt(XYZ, sz, r);
        ModeIndexLayout(sz, c, x);
        PackBound(c, r, 2, n);
        mode := mode + [vec[ModeIndex(sz, c, x)]];
        r := r + 1;
      }
      c := c + 1;
    }
  }

  // ---------------------------------------------------------------------
  // The complex derotation of derotateMode.

  /** R_r^T applied to the real and the imaginary part of a 2-component complex mode. */
  function DerotatedComplex(rs: seq<seq<seq<real>>>, z: seq<Complex>, n: nat): (w: seq<Complex>)
    requires Mats(rs, n) && |z| == 2 * n
    ensures |w| == 3 * n
  {
    Zip(Derotated(rs, Re(z), n), Derotated(rs, Im(z), n))
  }

  /**
   * Component p of cell r is the complex sum 0 + z_0 * complex(R_r[0][p], 0) +
   * z_1 * complex(R_r[1][p], 0) that derotateMode accumulates.
   */
  lemma {:induction false} DerotatedComplexAt(rs: seq<seq<seq<real>>>, z: seq<Complex>, n: nat, p: nat, r: nat)
    requires Mats(rs, n) && |z| == 2 * n && p < 3 && r < n
    ensures p * n + r < 3 * n && r < n + r < 2 * n
    ensures DerotatedComplex(rs, z, n)[p * n + r]
      == Add(Add(Zero, Mul(z[r], OfReal(rs[r][0][p]))), Mul(z[n + r], OfReal(rs[r][1][p])))
  {
    DerotatedIndex(rs, Re(z), n, p, r);
    DerotatedIndex(rs, Im(z), n, p, r);
    var a, b := ModeAt(Re(z), n, 2, r), ModeAt(Im(z), n, 2, r);
    var col := ColumnOf(rs[r], p);
    PackBound(1, r, 2, n);
    assert a[0] == z[r].re && a[1] == z[n + r].re;
    assert b[0] == z[r].im && b[1] == z[n + r].im;
    Dot2(a, col);
    Dot2(b, col);
  }

  /** The rotations of the solver: R_r for the moment of the cell with x,y,z index r. */
  ghost predicate SolverRotations(rs: seq<seq<seq<real>>>, m: seq<real>, sth: seq<real>, sz: Size)
    requires |m| == 3 * sz.Cells() && |sth| == sz.Cells() && forall s :: 0 <= s < |sth| ==> sth[s] != 0.0
  {
    Mats(rs, sz.Cells()) && forall r :: 0 <= r < sz.Cells() ==> rs[r] == RotationAt(m, sth, sz.Cells(), SliceCell(XYZ, sz, r))
  }

  /**
   * For those rotations of a tilted ground state, rotating a derotated mode
   * gives it back, and a derotated mode is perpendicular to the moment of its cell.
   */
  lemma {:induction false} SolverRoundTrip(rs: seq<seq<seq<real>>>, m: seq<real>, sth: seq<real>, sz: Size, v: seq<real>)
    requires |m| == 3 * sz.Cells() && |sth| == sz.Cells() && |v| == 2 * sz.Cells()
    requires forall s :: 0 <= s < |sth| ==> sth[s] != 0.0
    requires TiltedState(m, sth, sz.Cells()) && SolverRotations(rs, m, sth, sz)
    ensures Rotated(rs, Derotated(rs, v, sz.Cells()), sz.Cells()) == v
    ensures forall r :: 0 <= r < sz.Cells() ==>
      Dot(ModeAt(m, sz.Cells(), 3, SliceCell(XYZ, sz, r)), ModeAt(Derotated(rs, v, sz.Cells()), sz.Cells(), 3, r), 3) == 0.0
  {
    var n := sz.Cells();
    forall r | 0 <= r < n
      ensures Orthonormal(rs[r])
      ensures Dot(ModeAt(m, n, 3, SliceCell(XYZ, sz, r)), ModeAt(Derotated(rs, v, n), n, 3, r), 3) == 0.0
    {
      var s := SliceCell(XYZ, sz, r);
      var u := ModeAt(m, n, 3, s);
      RotationsOfState(m, sth, n, s);
      DerotatedPerpendicular(rs, v, u, n, r);
    }
    RotateDerotate(rs, v, n);
  }

  // ---------------------------------------------------------------------
  // The eigenvector matrix.

  /** V is an n x n matrix given by its rows. */
  predicate SquareMatrix(V: seq<seq<Complex>>, n: nat)
  {
    |V| == n && forall q :: 0 <= q < n ==> |V[q]| == n
  }

  /** Column p of a square matrix: where Eigen.VectorsTo stores eigenvector p. */
  function EigenvectorColumn(V: seq<seq<Complex>>, p: nat): seq<Complex>
    requires SquareMatrix(V, |V|) && p < |V|
  {
    seq(|V|, q requires 0 <= q < |V| => V[q][p])
  }

  /** Row q of a real 2 x 2 matrix times a 2-vector, for q = 0, 1. */
  function Apply2(a: seq<seq<real>>, v: seq<real>): (w: seq<real>)
    requires |a| == 2 && |a[0]| == 2 && |a[1]| == 2 && |v| == 2
    ensures |w| == 2
  {
    [a[0][0] * v[0] + a[0][1] * v[1], a[1][0] * v[0] + a[1][1] * v[1]]
  }

  /** a v = lambda v. */
  predicate Eigenvector2(a: seq<seq<real>>, v: seq<real>, lambda: real)
    requires |a| == 2 && |a[0]| == 2 && |a[1]| == 2 && |v| == 2
  {
    Apply2(a, v) == [lambda * v[0], lambda * v[1]]
  }

  /**
   * A matrix whose eigenvector columns are not its rows. For a = [[1, 1], [0, 2]]
   * the matrix V = [[1, 1], [0, 1]] holds an eigenvector of a in each column,
   * as Eigen.VectorsTo lays them out, but its row 1, which Solve as written
   * reshapes into mode 1, is an eigenvector for no eigenvalue.
   */
  lemma RowIsNoEigenvector()
    ensures var a, V := [[1.0, 1.0], [0.0, 2.0]], [[OfReal(1.0), OfReal(1.0)], [OfReal(0.0), OfReal(1.0)]];
      SquareMatrix(V, 2)
      && Eigenvector2(a, Re(EigenvectorColumn(V, 0)), 1.0) && Eigenvector2(a, Re(EigenvectorColumn(V, 1)), 2.0)
      && forall lambda :: !Eigenvector2(a, Re(V[1]), lambda)
  {
    var a, V := [[1.0, 1.0], [0.0, 2.0]], [[OfReal(1.0), OfReal(1.0)], [OfReal(0.0), OfReal(1.0)]];
    assert Re(EigenvectorColumn(V, 0)) == [1.0, 0.0];
    assert Re(EigenvectorColumn(V, 1)) == [1.0, 1.0];
    assert Re(V[1]) == [0.0, 1.0];
    forall lambda ensures !Eigenvector2(a, Re(V[1]), lambda) {
      assert Apply2(a, [0.0, 1.0])[0] == 1.0;
    }
  }

  // ---------------------------------------------------------------------
  // The solver.

  class RotatedToZ {
    /** The rotations, one per cell in x,y,z order ([i][j][k]). */
    var R: seq<seq<seq<real>>>

    /** The zero value: R is nil. */
    constructor ()
      ensures R == []
    {
      R := [];
    }

    /**
     * initRotation as written: R is made with Nx empty rows, so the first
     * store R[i][j][k] indexes an empty slice; the rotation in between (Cth,
     * Sth, Cph, Sph) is left out since it cannot change the outcome. The
     * receiver is a value, so nothing would reach the solver's R in any case.
     */
    method InitRotationAsWritten(sz: Size) returns (outcome: Result<()>)
      ensures outcome.Panic? <==> sz.Cells() > 0
    {
      var rows: seq<seq<seq<seq<seq<real>>>>> := seq(sz.nx, i => []);
      CellsPositive(sz);
      var i := 0;
      while i < sz.nx
        invariant 0 <= i <= sz.nx
        invariant i > 0 ==> sz.ny == 0 || sz.nz == 0
      {
        var j := 0;
        while j < sz.ny
          invariant 0 <= j <= sz.ny
          invariant j > 0 ==> sz.nz == 0
        {
          // k == 0 when Nz > 0: the store indexes R[i] at j
          if 0 < sz.nz && j >= |rows[i]| {
            return Panic("index out of range");
          }
          j := j + 1;
        }
        i := i + 1;
      }
      outcome := Ok(());
    }

    /**
     * initRotation with R stored: R_r is the rotation of the moment of the
     * cell with x,y,z index r, read from the z,y,x-ordered host copy m, with
     * Sth supplied per slice cell as in RotationToZ.InitRotation.
     */
    method InitRotation(m: seq<real>, sz: Size, sth: seq<real>)
      requires |m| == 3 * sz.Cells() && |sth| == sz.Cells()
      requires forall s :: 0 <= s < |sth| ==> sth[s] != 0.0
      modifies this
      ensures SolverRotations(R, m, sth, sz)
    {
      var n := sz.Cells();
      R := [];
      var r := 0;
      while r < n
        invariant 0 <= r <= n && |R| == r
        invariant forall r' :: 0 <= r' < r ==> R[r'] == RotationAt(m, sth, n, SliceCell(XYZ, sz, r'))
      {
        var x := CellAt(XYZ, sz, r);
        var s := CellIndex(ZYX, sz, x);
        PackBound(0, s, 3, n);
        PackBound(1, s, 3, n);
        PackBound(2, s, 3, n);
        var mx, my, mz := m[s], m[n + s], m[2 * n + s];
        var cth, cph, sph := mz, mx / sth[s], my / sth[s];
        var rot := RotationFrom(cth, sth[s], cph, sph);
        ghost var u := ModeAt(m, n, 3, s);
        assert u[0] == mx && u[1] == my && u[2] == mz;
        R := R + [rot];
        r := r + 1;
      }
    }

    /** rotateToZ: block (r, r') of the result is R_r t(r, r') R_r'^T; t is unchanged. */
    method RotateToZ(t: Tensor) returns (res: Tensor)
      requires t.Valid() && t.shape.order == XYZ && t.shape.nComp == 3 && Mats(R, t.shape.N())
      ensures fresh(res) && fresh(res.data) && res.Valid() && res.shape == t.shape
      ensures forall e :: InShape(t.shape, e) ==> res.Get(e) == RotatedEntry(t.shape, t.data[..], R, e)
    {
      res := RotateBlocks(t, R);
    }

    /** magCross: a fresh zero tensor whose rows 0 and 1 are -t row 1 and t row 0. */
    method MagCross(t: Tensor) returns (res: Tensor)
      requires t.Valid() && t.shape.nComp == 3
      ensures fresh(res) && fresh(res.data) && res.Valid() && res.shape == t.shape
      ensures res.data[..] == MagCrossed(t.shape, t.data[..])
    {
      var sh := t.shape;
      var ms := seq(sh.N(), r => 1.0);
      res := DynamicOperateRotated(t, ms, 1.0);
      forall p | 0 <= p < sh.Len() ensures res.data[p] == MagCrossed(sh, t.data[..])[p] {
        var e := EntryAt(sh, p);
        CrossIsUnitRotated(sh, t.data[..], e);
        assert res.Get(e) == res.data[p];
      }
    }

    /**
     * derotateMode as written: the result's three component arrays are nil,
     * so the first write, at cell 0, is out of range.
     */
    method DerotateModeAsWritten(mode: seq<Complex>, sz: Size) returns (outcome: Result<seq<seq<Complex>>>)
      requires |mode| == 2 * sz.Cells() && Mats(R, sz.Cells())
      ensures outcome.Panic? <==> sz.Cells() > 0
      ensures outcome.Ok? ==> |outcome.value| == 3 && forall p :: 0 <= p < 3 ==> outcome.value[p] == []
    {
      var derotated: seq<seq<Complex>> := [[], [], []];
      if 0 < sz.Cells() && 0 >= |derotated[0]| {
        return Panic("index out of range");
      }
      outcome := Ok(derotated);
    }

    /** derotateMode with storage for the result: R_r^T of each cell's two complex components. */
    method DerotateMode(mode: seq<Complex>, sz: Size) returns (d: seq<Complex>)
      requires |mode| == 2 * sz.Cells() && Mats(R, sz.Cells())
      ensures d == DerotatedComplex(R, mode, sz.Cells())
    {
      var n := sz.Cells();
      var re := new real[2 * n](k requires 0 <= k < 2 * n => mode[k].re);
      var im := new real[2 * n](k requires 0 <= k < 2 * n => mode[k].im);
      assert re[..] == Re(mode) && im[..] == Im(mode);
      var dre := new real[3 * n];
      var dim := new real[3 * n];
      DerotateInto(R, re, dre, n);
      DerotateInto(R, im, dim, n);
      d := Zip(dre[..], dim[..]);
    }

    /**
     * The eigenpair loop of Solve as written: it runs to 3N, but the
     * eigenvalues of the 2N x 2N matrix are only 2N, so it reads past their end.
     */
    method FrequenciesAsWritten(values: seq<Complex>, n: nat, factor: real) returns (outcome: Result<seq<real>>)
      requires |values| == 2 * n
      ensures outcome.Panic? <==> n > 0
      ensures outcome.Ok? ==> outcome.value == []
    {
      var freq := new real[3 * n];
      var p := 0;
      while p < 3 * n
        invariant 0 <= p <= 3 * n && p <= |values|
      {
        if p >= |values| {
          return Panic("index out of range");
        }
        freq[p] := values[p].im * factor;
        p := p + 1;
      }
      outcome := Ok(freq[..]);
    }

    /**
     * The eigenpair loop of Solve as written, over the 2N eigenpairs: frequency
     * p is the imaginary part of eigenvalue p times the dynamic factor, and
     * mode p is the derotated reshape of vectors.At(p, .), row p of the matrix V
     * that Eigen.VectorsTo filled.
     */
    method ModesOfAsWritten(values: seq<Complex>, V: seq<seq<Complex>>, sz: Size, factor: real)
      returns (freq: seq<real>, modes: seq<seq<Complex>>)
      requires |values| == 2 * sz.Cells() && SquareMatrix(V, 2 * sz.Cells()) && Mats(R, sz.Cells())
      ensures |freq| == |values| && |modes| == |values|
      ensures forall p :: 0 <= p < |values| ==> freq[p] == values[p].im * factor
      ensures forall p :: 0 <= p < |values| ==> modes[p] == DerotatedComplex(R, V[p], sz.Cells())
    {
      var total := 2 * sz.Cells();
      freq, modes := [], [];
      var p := 0;
      while p < total
        invariant 0 <= p <= total && |freq| == p && |modes| == p
        invariant forall q :: 0 <= q < p ==> freq[q] == values[q].im * factor
        invariant forall q :: 0 <= q < p ==> modes[q] == DerotatedComplex(R, V[q], sz.Cells())
      {
        var mode := ReshapeMode(V[p], sz);
        var d := DerotateMode(mode, sz);
        freq := freq + [values[p].im * factor];
        modes := modes + [d];
        p := p + 1;
      }
    }

    /**
     * The eigenpair loop of Solve over its 2N eigenpairs reading eigenvector p,
     * column p of V: frequency p is the imaginary part of eigenvalue p times
     * the dynamic factor, and mode p is the derotated reshape of that column.
     */
    method ModesOf(values: seq<Complex>, V: seq<seq<Complex>>, sz: Size, factor: real)
      returns (freq: seq<real>, modes: seq<seq<Complex>>)
      requires |values| == 2 * sz.Cells() && SquareMatrix(V, 2 * sz.Cells()) && Mats(R, sz.Cells())
      ensures |freq| == |values| && |modes| == |values|
      ensures forall p :: 0 <= p < |values| ==> freq[p] == values[p].im * factor
      ensures forall p :: 0 <= p < |values| ==> modes[p] == DerotatedComplex(R, EigenvectorColumn(V, p), sz.Cells())
    {
      var total := 2 * sz.Cells();
      freq, modes := [], [];
      var p := 0;
      while p < total
        invariant 0 <= p <= total && |freq| == p && |modes| == p
        invariant forall q :: 0 <= q < p ==> freq[q] == values[q].im * factor
        invariant forall q :: 0 <= q < p ==> modes[q] == DerotatedComplex(R, EigenvectorColumn(V, q), sz.Cells())
      {
        var vec := seq(total, q requires 0 <= q < total => V[q][p]);
        assert vec == EigenvectorColumn(V, p);
        var mode := ReshapeMode(vec, sz);
        var d := DerotateMode(mode, sz);
        freq := freq + [values[p].im * factor];
        modes := modes + [d];
        p := p + 1;
      }
    }
  }
}
