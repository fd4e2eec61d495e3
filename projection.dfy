/**
 * The rotation-to-z reduction of mag/projection.go: the per-cell rotations
 * R_r with R_r m_r = (0, 0, 1), the congruence transform of a tensor, and
 * the transforms of a mode between the 3-component lab frame and the
 * 2-component plane perpendicular to the ground state.
 *
 * A mode is stored like a mumax slice: component q of cell r at q*N + r.
 */
module Projection {
  import opened Arith
  import opened Grid
  import opened Sums
  import opened Tensors
  import opened Matrices
  import opened Congruence
  import opened Slices
  import opened ComplexSlices

  /** The nc components of a field at cell r. */
  function ModeAt(v: seq<real>, n: nat, nc: nat, r: nat): (u: seq<real>)
    requires |v| == nc * n && r < n
    ensures |u| == nc
  {
    seq(nc, q requires 0 <= q < nc => PackBound(q, r, nc, n); v[q * n + r])
  }

  /** Component p of R_r^T restricted to the plane: v_0 R_r[0][p] + v_1 R_r[1][p]. */
  function DerotatedAt(rs: seq<seq<seq<real>>>, v: seq<real>, n: nat, p: nat, r: nat): real
    requires Mats(rs, n) && |v| == 2 * n && p < 3 && r < n
  {
    Dot(ModeAt(v, n, 2, r), ColumnOf(rs[r], p), 2)
  }

  /** Component p < 2 of R_r v_r: v_0 R_r[p][0] + v_1 R_r[p][1] + v_2 R_r[p][2]. */
  function RotatedAt(rs: seq<seq<seq<real>>>, v: seq<real>, n: nat, p: nat, r: nat): real
    requires Mats(rs, n) && |v| == 3 * n && p < 2 && r < n
  {
    Dot(ModeAt(v, n, 3, r), rs[r][p], 3)
  }

  /** The 3-component field R_r^T (v_0, v_1, 0) of a 2-component field. */
  function Derotated(rs: seq<seq<seq<real>>>, v: seq<real>, n: nat): (w: seq<real>)
    requires Mats(rs, n) && |v| == 2 * n
    ensures |w| == 3 * n
  {
    seq(3 * n, x requires 0 <= x < 3 * n => UnpackBound(x, 3, n); Unpack(x, n); DerotatedAt(rs, v, n, x / n, x % n))
  }

  /** The 2-component field of the first two components of R_r v_r. */
  function Rotated(rs: seq<seq<seq<real>>>, v: seq<real>, n: nat): (w: seq<real>)
    requires Mats(rs, n) && |v| == 3 * n
    ensures |w| == 2 * n
  {
    seq(2 * n, x requires 0 <= x < 2 * n => UnpackBound(x, 2, n); Unpack(x, n); RotatedAt(rs, v, n, x / n, x % n))
  }

  lemma {:induction false} DerotatedIndex(rs: seq<seq<seq<real>>>, v: seq<real>, n: nat, p: nat, r: nat)
    requires Mats(rs, n) && |v| == 2 * n && p < 3 && r < n
    ensures p * n + r < 3 * n && Derotated(rs, v, n)[p * n + r] == DerotatedAt(rs, v, n, p, r)
  {
    PackBound(p, r, 3, n);
    PackUnpack(p, r, n);
  }

  lemma {:induction false} RotatedIndex(rs: seq<seq<seq<real>>>, v: seq<real>, n: nat, p: nat, r: nat)
    requires Mats(rs, n) && |v| == 3 * n && p < 2 && r < n
    ensures p * n + r < 2 * n && Rotated(rs, v, n)[p * n + r] == RotatedAt(rs, v, n, p, r)
  {
    PackBound(p, r, 2, n);
    PackUnpack(p, r, n);
  }

  // ---------------------------------------------------------------------
  // The round trip and the perpendicularity of derotated modes.

  /** Component k of the derotated vector at one cell is v_0 R[0][k] + v_1 R[1][k]. */
  lemma {:induction false} DerotatedComponent(rs: seq<seq<seq<real>>>, v: seq<real>, n: nat, r: nat, k: nat)
    requires Mats(rs, n) && |v| == 2 * n && r < n && k < 3
    ensures var u := ModeAt(v, n, 2, r);
      ModeAt(Derotated(rs, v, n), n, 3, r)[k] == u[0] * rs[r][0][k] + u[1] * rs[r][1][k]
  {
    var w := Derotated(rs, v, n);
    DerotatedIndex(rs, v, n, k, r);
    assert ModeAt(w, n, 3, r)[k] == w[k * n + r];
    ColumnDot2(ModeAt(v, n, 2, r), rs[r], k);
  }

  /** A 2-vector dotted with the first two entries of column k of a 3x3 matrix. */
  lemma {:induction false} ColumnDot2(u: seq<real>, m: seq<seq<real>>, k: nat)
    requires |u| == 2 && IsMat3(m) && k < 3
    ensures Dot(u, ColumnOf(m, k), 2) == u[0] * m[0][k] + u[1] * m[1][k]
  {
    var col := ColumnOf(m, k);
    Dot2(u, col);
    assert col[0] == m[0][k] && col[1] == m[1][k];
  }

  /** u0 x + u1 y for two vectors of length 3. */
  function Span(u0: real, x: seq<real>, u1: real, y: seq<real>): (d: seq<real>)
    requires |x| == 3 && |y| == 3
    ensures |d| == 3
  {
    seq(3, k requires 0 <= k < 3 => u0 * x[k] + u1 * y[k])
  }

  /** The derotated vector at one cell is v_0 R[0] + v_1 R[1]. */
  lemma {:induction false} DerotatedCell(rs: seq<seq<seq<real>>>, v: seq<real>, n: nat, r: nat)
    requires Mats(rs, n) && |v| == 2 * n && r < n
    ensures ModeAt(Derotated(rs, v, n), n, 3, r) == Span(ModeAt(v, n, 2, r)[0], rs[r][0], ModeAt(v, n, 2, r)[1], rs[r][1])
  {
    var u := ModeAt(v, n, 2, r);
    forall k | 0 <= k < 3
      ensures ModeAt(Derotated(rs, v, n), n, 3, r)[k] == Span(u[0], rs[r][0], u[1], rs[r][1])[k]
    {
      DerotatedComponent(rs, v, n, r, k);
    }
  }

  /** A vector in the span of rows 0 and 1, dotted with row p of an orthonormal R. */
  lemma {:induction false} SpanDot(a: seq<seq<real>>, u0: real, u1: real, p: nat)
    requires IsMat3(a) && Orthonormal(a) && p < 3
    ensures Dot(Span(u0, a[0], u1, a[1]), a[p], 3) == if p == 0 then u0 else if p == 1 then u1 else 0.0
  {
    var d := Span(u0, a[0], u1, a[1]);
    DotSymmetric(d, a[p], 3);
    DotLinear(a[p], d, u0, a[0], u1, a[1], 3);
    DotSymmetric(a[p], a[0], 3);
    DotSymmetric(a[p], a[1], 3);
  }

  /** The round trip at component p of cell r. */
  lemma {:induction false} RotateDerotateAt(rs: seq<seq<seq<real>>>, v: seq<real>, n: nat, p: nat, r: nat)
    requires Mats(rs, n) && |v| == 2 * n && p < 2 && r < n && Orthonormal(rs[r])
    ensures p * n + r < 2 * n && Rotated(rs, Derotated(rs, v, n), n)[p * n + r] == v[p * n + r]
  {
    var u, d := ModeAt(v, n, 2, r), Derotated(rs, v, n);
    RotatedIndex(rs, d, n, p, r);
    DerotatedCell(rs, v, n, r);
    SpanDot(rs[r], u[0], u[1], p);
  }

  /** With orthonormal rotations, rotating a derotated mode gives the mode back. */
  lemma {:induction false} RotateDerotate(rs: seq<seq<seq<real>>>, v: seq<real>, n: nat)
    requires Mats(rs, n) && |v| == 2 * n
    requires forall r :: 0 <= r < n ==> Orthonormal(rs[r])
    ensures Rotated(rs, Derotated(rs, v, n), n) == v
  {
    var w := Rotated(rs, Derotated(rs, v, n), n);
    forall x | 0 <= x < 2 * n ensures w[x] == v[x] {
      UnpackBound(x, 2, n);
      Unpack(x, n);
      RotateDerotateAt(rs, v, n, x / n, x % n);
    }
  }

  /** A derotated mode at cell r is perpendicular to any w that rows 0 and 1 of R_r are perpendicular to. */
  lemma {:induction false} DerotatedPerpendicular(rs: seq<seq<seq<real>>>, v: seq<real>, w: seq<real>, n: nat, r: nat)
    requires Mats(rs, n) && |v| == 2 * n && |w| == 3 && r < n
    requires Dot(rs[r][0], w, 3) == 0.0 && Dot(rs[r][1], w, 3) == 0.0
    ensures Dot(w, ModeAt(Derotated(rs, v, n), n, 3, r), 3) == 0.0
  {
    var u := ModeAt(v, n, 2, r);
    DerotatedCell(rs, v, n, r);
    SpanPerpendicular(u[0], rs[r][0], u[1], rs[r][1], w);
  }

  /** u0*x + u1*y is perpendicular to every w that x and y are perpendicular to. */
  lemma {:induction false} SpanPerpendicular(u0: real, x: seq<real>, u1: real, y: seq<real>, w: seq<real>)
    requires |x| == 3 && |y| == 3 && |w| == 3 && Dot(x, w, 3) == 0.0 && Dot(y, w, 3) == 0.0
    ensures Dot(w, Span(u0, x, u1, y), 3) == 0.0
  {
    DotLinear(w, Span(u0, x, u1, y), u0, x, u1, y, 3);
    DotSymmetric(x, w, 3);
    DotSymmetric(y, w, 3);
  }

  // ---------------------------------------------------------------------
  // The rotations of InitRotation.

  /** R_r for the moment of cell r of m, with the supplied Sth(r). */
  function RotationAt(m: seq<real>, sth: seq<real>, n: nat, r: nat): (a: seq<seq<real>>)
    requires |m| == 3 * n && |sth| == n && r < n && sth[r] != 0.0
    ensures IsMat3(a)
  {
    var u := ModeAt(m, n, 3, r);
    RotationMatrix(u[0], u[1], u[2], sth[r])
  }

  /** A unit ground state with Sth(r)^2 == 1 - mz(r)^2 and Sth(r) != 0 at every cell. */
  predicate TiltedState(m: seq<real>, sth: seq<real>, n: nat)
    requires |m| == 3 * n && |sth| == n
  {
    forall r :: 0 <= r < n ==> var u := ModeAt(m, n, 3, r); Tilted(u[0], u[1], u[2], sth[r])
  }

  /** For such a ground state every R_r is orthonormal and takes m_r to z. */
  lemma {:induction false} RotationsOfState(m: seq<real>, sth: seq<real>, n: nat, r: nat)
    requires |m| == 3 * n && |sth| == n && TiltedState(m, sth, n) && r < n
    ensures Orthonormal(RotationAt(m, sth, n, r))
    ensures forall p :: 0 <= p < 3 ==> Dot(RotationAt(m, sth, n, r)[p], ModeAt(m, n, 3, r), 3) == if p == 2 then 1.0 else 0.0
    ensures RotationAt(m, sth, n, r)[2] == ModeAt(m, n, 3, r)
  {
    var u := ModeAt(m, n, 3, r);
    RotationIsOrthonormal(u[0], u[1], u[2], sth[r]);
    RotationThirdRow(u[0], u[1], u[2], sth[r]);
    assert u == [u[0], u[1], u[2]];
  }

  /**
   * For the rotations of a tilted ground state, RotateMode undoes DerotateMode
   * and every derotated mode is perpendicular to the ground state at every cell.
   */
  lemma {:induction false} RotationsOfStateRoundTrip(rs: seq<seq<seq<real>>>, m: seq<real>, sth: seq<real>, v: seq<real>, n: nat)
    requires |m| == 3 * n && |sth| == n && |v| == 2 * n && TiltedState(m, sth, n)
    requires Mats(rs, n) && forall r :: 0 <= r < n ==> rs[r] == RotationAt(m, sth, n, r)
    ensures Rotated(rs, Derotated(rs, v, n), n) == v
    ensures forall r :: 0 <= r < n ==> Dot(ModeAt(m, n, 3, r), ModeAt(Derotated(rs, v, n), n, 3, r), 3) == 0.0
  {
    forall r | 0 <= r < n ensures Orthonormal(rs[r]) && Dot(ModeAt(m, n, 3, r), ModeAt(Derotated(rs, v, n), n, 3, r), 3) == 0.0 {
      RotationsOfState(m, sth, n, r);
      DerotatedPerpendicular(rs, v, ModeAt(m, n, 3, r), n, r);
    }
    RotateDerotate(rs, v, n);
  }

  // ---------------------------------------------------------------------
  // The mode loops: cells in storage order, then components.

  /** derotated[p][r] = 0, then += v_q(r) * R_r[q][p] for q < 2. */
  method DerotateEntry(rs: seq<seq<seq<real>>>, src: array<real>, dst: array<real>, n: nat, p: nat, r: nat)
    requires Mats(rs, n) && src.Length == 2 * n && dst.Length == 3 * n && src != dst && p < 3 && r < n
    modifies dst
    ensures p * n + r < 3 * n
    ensures dst[..] == old(dst[..])[p * n + r := DerotatedAt(rs, src[..], n, p, r)]
  {
    PackBound(p, r, 3, n);
    var y := p * n + r;
    ghost var u, col := ModeAt(src[..], n, 2, r), ColumnOf(rs[r], p);
    dst[y] := 0.0;
    var q := 0;
    while q < 2
      invariant 0 <= q <= 2
      invariant dst[..] == old(dst[..])[y := Dot(u, col, q)]
    {
      PackBound(q, r, 2, n);
      assert u[q] == src[q * n + r];
      DotStep(u, col, q, rs[r][q][p]);
      assert dst[y] == Dot(u, col, q);
      dst[y] := dst[y] + src[q * n + r] * rs[r][q][p];
      assert dst[y] == Dot(u, col, q + 1);
      q := q + 1;
    }
  }

  /** rotated[p][r] (reset to 0 unless it is known to be 0) += v_q(r) * R_r[p][q] for q < 3. */
  method RotateEntry(rs: seq<seq<seq<real>>>, src: array<real>, dst: array<real>, n: nat, p: nat, r: nat, reset: bool)
    requires Mats(rs, n) && src.Length == 3 * n && dst.Length == 2 * n && src != dst && p < 2 && r < n
    requires reset || (p * n + r < dst.Length && dst[p * n + r] == 0.0)
    modifies dst
    ensures p * n + r < 2 * n
    ensures dst[..] == old(dst[..])[p * n + r := RotatedAt(rs, src[..], n, p, r)]
  {
    PackBound(p, r, 2, n);
    var y := p * n + r;
    ghost var u := ModeAt(src[..], n, 3, r);
    if reset {
      dst[y] := 0.0;
    }
    assert dst[..] == old(dst[..])[y := Dot(u, rs[r][p], 0)];
    var q := 0;
    while q < 3
      invariant 0 <= q <= 3
      invariant dst[..] == old(dst[..])[y := Dot(u, rs[r][p], q)]
    {
      PackBound(q, r, 3, n);
      assert u[q] == src[q * n + r];
      DotStep(u, rs[r][p], q, rs[r][p][q]);
      assert dst[y] == Dot(u, rs[r][p], q);
      dst[y] := dst[y] + src[q * n + r] * rs[r][p][q];
      assert dst[y] == Dot(u, rs[r][p], q + 1);
      q := q + 1;
    }
  }

  /** The field value at x is final once its cell comes before cell r, or is cell r with a component before p. */
  predicate WrittenUpTo(n: nat, r: nat, p: nat, x: nat)
    requires 0 < n
  {
    x % n < r || (x % n == r && x / n < p)
  }

  /** Writing position p*N + r extends the written part by exactly that position. */
  lemma {:induction false} WriteStep(n: nat, r: nat, p: nat, x: nat)
    requires 0 < n && r < n
    ensures WrittenUpTo(n, r, p + 1, x) == (WrittenUpTo(n, r, p, x) || x == p * n + r)
  {
    PackUnpack(p, r, n);
    if x % n == r && x / n == p {
      UnpackInjective(x, p * n + r, n);
    }
  }

  /** The derotation loops into a zero-filled 3-component destination. */
  method DerotateInto(rs: seq<seq<seq<real>>>, src: array<real>, dst: array<real>, n: nat)
    requires Mats(rs, n) && src.Length == 2 * n && dst.Length == 3 * n && src != dst
    modifies dst
    ensures dst[..] == Derotated(rs, src[..], n)
  {
    ghost var want := Derotated(rs, src[..], n);
    var r := 0;
    while r < n
      invariant 0 <= r <= n
      invariant forall x :: 0 <= x < 3 * n && x % n < r ==> dst[x] == want[x]
    {
      var p := 0;
      while p < 3
        invariant 0 <= p <= 3
        invariant forall x :: 0 <= x < 3 * n && WrittenUpTo(n, r, p, x) ==> dst[x] == want[x]
      {
        DerotateEntry(rs, src, dst, n, p, r);
        DerotatedIndex(rs, src[..], n, p, r);
        forall x | 0 <= x < 3 * n ensures WrittenUpTo(n, r, p + 1, x) == (WrittenUpTo(n, r, p, x) || x == p * n + r) {
          WriteStep(n, r, p, x);
        }
        p := p + 1;
      }
      forall x | 0 <= x < 3 * n && x % n < r + 1 ensures WrittenUpTo(n, r, 3, x) {
        UnpackBound(x, 3, n);
      }
      r := r + 1;
    }
    forall x | 0 <= x < 3 * n ensures dst[x] == want[x] {
      Unpack(x, n);
    }
  }

  /** The rotation loops into a 2-component destination; without the reset it must start zero-filled. */
  method RotateInto(rs: seq<seq<seq<real>>>, src: array<real>, dst: array<real>, n: nat, reset: bool)
    requires Mats(rs, n) && src.Length == 3 * n && dst.Length == 2 * n && src != dst
    requires reset || forall x :: 0 <= x < dst.Length ==> dst[x] == 0.0
    modifies dst
    ensures dst[..] == Rotated(rs, src[..], n)
  {
    ghost var want := Rotated(rs, src[..], n);
    var r := 0;
    while r < n
      invariant 0 <= r <= n
      invariant forall x :: 0 <= x < 2 * n ==> dst[x] == if x % n < r then want[x] else old(dst[x])
    {
      var p := 0;
      while p < 2
        invariant 0 <= p <= 2
        invariant forall x :: 0 <= x < 2 * n ==> dst[x] == if WrittenUpTo(n, r, p, x) then want[x] else old(dst[x])
      {
        PackBound(p, r, 2, n);
        PackUnpack(p, r, n);
        RotateEntry(rs, src, dst, n, p, r, reset);
        RotatedIndex(rs, src[..], n, p, r);
        forall x | 0 <= x < 2 * n ensures WrittenUpTo(n, r, p + 1, x) == (WrittenUpTo(n, r, p, x) || x == p * n + r) {
          WriteStep(n, r, p, x);
        }
        p := p + 1;
      }
      forall x | 0 <= x < 2 * n ensures WrittenUpTo(n, r, 2, x) == (x % n < r + 1) {
        UnpackBound(x, 2, n);
      }
      r := r + 1;
    }
    forall x | 0 <= x < 2 * n ensures dst[x] == want[x] {
      Unpack(x, n);
    }
  }

  // ---------------------------------------------------------------------
  // RotationToZ.

  /** The pointwise rotations, one per cell in z,y,x order. */
  class RotationToZ {
    var R: seq<seq<seq<real>>>

    /** The zero value: no rotations yet. */
    constructor ()
      ensures R == []
    {
      R := [];
    }

    /**
     * InitRotation from the host copy m of the magnetisation and Sth(r) =
     * sqrt(1 - mz(r)^2), supplied per cell; Sth(r) == 0 is not handled.
     */
    method InitRotation(m: seq<real>, sz: Size, sth: seq<real>)
      requires |m| == 3 * sz.Cells() && |sth| == sz.Cells()
      requires forall r :: 0 <= r < |sth| ==> sth[r] != 0.0
      modifies this
      ensures Mats(R, sz.Cells())
      ensures forall r :: 0 <= r < sz.Cells() ==> R[r] == RotationAt(m, sth, sz.Cells(), r)
    {
      var n := sz.Cells();
      R := [];
      var r := 0;
      while r < n
        invariant 0 <= r <= n && |R| == r
        invariant forall r' :: 0 <= r' < r ==> R[r'] == RotationAt(m, sth, n, r')
      {
        PackBound(0, r, 3, n);
        PackBound(1, r, 3, n);
        PackBound(2, r, 3, n);
        var mx, my, mz := m[r], m[n + r], m[2 * n + r];
        var cth, cph, sph := mz, mx / sth[r], my / sth[r];
        var rot := RotationFrom(cth, sth[r], cph, sph);
        ghost var u := ModeAt(m, n, 3, r);
        assert u[0] == mx && u[1] == my && u[2] == mz;
        R := R + [rot];
        r := r + 1;
      }
    }

    /** RotateTensor: block (r, r') of the result is R_r t(r, r') R_r'^T; t is unchanged. */
    method RotateTensor(t: Tensor) returns (res: Tensor)
      requires t.Valid() && t.shape.order == ZYX && t.shape.nComp == 3 && Mats(R, t.shape.N())
      ensures fresh(res) && fresh(res.data) && res.Valid() && res.shape == t.shape
      ensures forall e :: InShape(t.shape, e) ==> res.Get(e) == RotatedEntry(t.shape, t.data[..], R, e)
    {
      res := RotateBlocks(t, R);
    }

    /** DerotateMode: R_r^T of a 2-component host mode, real and imaginary parts alike. */
    method DerotateMode(mode: CSlice) returns (d: CSlice)
      requires mode.Valid() && mode.re.nComp == 2 && Mats(R, mode.re.size.Cells())
      ensures fresh(d) && fresh(d.re) && fresh(d.im) && fresh(d.re.data) && fresh(d.im.data)
      ensures d.Valid() && d.re.onHost && d.im.onHost && d.re.nComp == 3 && d.re.size == mode.re.size
      ensures d.re.data[..] == Derotated(R, mode.re.data[..], mode.re.size.Cells())
      ensures d.im.data[..] == Derotated(R, mode.im.data[..], mode.re.size.Cells())
    {
      var n := mode.re.size.Cells();
      var re := new Slice(3, mode.re.size, true);
      var im := new Slice(3, mode.re.size, true);
      d := new CSlice(re, im);
      DerotateInto(R, mode.re.data, re.data, n);
      DerotateInto(R, mode.im.data, im.data, n);
    }

    /** RotateMode: the in-plane components of R_r v_r for a 3-component host mode. */
    method RotateMode(mode: CSlice) returns (d: CSlice)
      requires mode.Valid() && mode.re.nComp == 3 && Mats(R, mode.re.size.Cells())
      ensures fresh(d) && fresh(d.re) && fresh(d.im) && fresh(d.re.data) && fresh(d.im.data)
      ensures d.Valid() && d.re.onHost && d.im.onHost && d.re.nComp == 2 && d.re.size == mode.re.size
      ensures d.re.data[..] == Rotated(R, mode.re.data[..], mode.re.size.Cells())
      ensures d.im.data[..] == Rotated(R, mode.im.data[..], mode.re.size.Cells())
    {
      var n := mode.re.size.Cells();
      var re := new Slice(2, mode.re.size, true);
      var im := new Slice(2, mode.re.size, true);
      d := new CSlice(re, im);
      RotateInto(R, mode.re.data, re.data, n, true);
      RotateInto(R, mode.im.data, im.data, n, true);
    }

    /** DerotateModeReal: DerotateMode on a real 2-component slice. */
    method DerotateModeReal(mode: Slice) returns (d: Slice)
      requires mode.Valid() && mode.nComp == 2 && Mats(R, mode.size.Cells())
      ensures fresh(d) && fresh(d.data) && d.Valid() && d.onHost && d.nComp == 3 && d.size == mode.size
      ensures d.data[..] == Derotated(R, mode.data[..], mode.size.Cells())
    {
      d := new Slice(3, mode.size, true);
      DerotateInto(R, mode.data, d.data, mode.size.Cells());
    }

    /** RotateModeReal: RotateMode on a real slice, accumulating into the zero-filled new slice. */
    method RotateModeReal(mode: Slice) returns (d: Slice)
      requires mode.Valid() && mode.nComp == 3 && Mats(R, mode.size.Cells())
      ensures fresh(d) && fresh(d.data) && d.Valid() && d.onHost && d.nComp == 2 && d.size == mode.size
      ensures d.data[..] == Rotated(R, mode.data[..], mode.size.Cells())
    {
      d := new Slice(2, mode.size, true);
      RotateInto(R, mode.data, d.data, mode.size.Cells(), false);
    }
  }
}
