/**
 * The dynamic operators of mag/systemtensors.go: DynamicOperate multiplies
 * every cell block (r, r') of a tensor by (gamma/Ms(r)) [m_r]x, and
 * DynamicOperateRotated applies the same rule in the frame in which every
 * moment points along z. The magnetisation, Msat and GammaLL enter as
 * parameters, the fields in z,y,x cell order.
 */
module Dynamics {
  import opened Grid
  import opened Sums
  import opened Tensors

  /** m_cross of DynamicOperate: the matrix [m]x with [m]x v == m x v. */
  function CrossMatrix(mx: real, my: real, mz: real): (a: seq<seq<real>>)
    ensures |a| == 3 && forall p :: 0 <= p < 3 ==> |a[p]| == 3
  {
    [[0.0, -mz, my], [mz, 0.0, -mx], [-my, mx, 0.0]]
  }

  /** [m]x is antisymmetric, so its diagonal is zero. */
  lemma {:induction false} CrossAntisymmetric(mx: real, my: real, mz: real, p: nat, q: nat)
    requires p < 3 && q < 3
    ensures CrossMatrix(mx, my, mz)[p][q] == -CrossMatrix(mx, my, mz)[q][p]
    ensures CrossMatrix(mx, my, mz)[p][p] == 0.0
  {
  }

  /** The m_cross of cell r, from the z,y,x-ordered magnetisation. */
  function MomentCross(sh: Shape, m: seq<real>, r: nat): (a: seq<seq<real>>)
    requires sh.nComp == 3 && |m| == sh.Dim() && r < sh.N()
    ensures |a| == 3 && forall p :: 0 <= p < 3 ==> |a[p]| == 3
  {
    CrossMatrix(m[RowIndex(sh, 0, r)], m[RowIndex(sh, 1, r)], m[RowIndex(sh, 2, r)])
  }

  /** What the dynamic operators read: a z,y,x-ordered 3-component tensor and a non-zero Msat in every cell. */
  predicate DynInputs(sh: Shape, s: seq<real>, ms: seq<real>)
  {
    sh.order == ZYX && sh.nComp == 3 && Fits(sh, s) && |ms| == sh.N() && forall r :: 0 <= r < |ms| ==> ms[r] != 0.0
  }

  /** Column q of block (r, r'): T[0][q], T[1][q], T[2][q]. */
  function Column(sh: Shape, s: seq<real>, q: nat, r: nat, r': nat): (col: seq<real>)
    requires sh.nComp == 3 && Fits(sh, s) && q < 3 && r < sh.N() && r' < sh.N()
    ensures |col| == 3
  {
    seq(3, k requires 0 <= k < 3 => At(sh, s, Entry(k, q, r, r')))
  }

  /** Row times column, scaled by gamma/msr. */
  function Operated(row: seq<real>, col: seq<real>, gamma: real, msr: real): real
    requires |row| == 3 && |col| == 3 && msr != 0.0
  {
    Dot(row, col, 3) * gamma / msr
  }

  /** Entry e of the block mc * T(r, r'), scaled by gamma/msr: the value the p, q, r loops leave. */
  function OperatedEntry(sh: Shape, s: seq<real>, mc: seq<seq<real>>, gamma: real, msr: real, e: Entry): real
    requires sh.nComp == 3 && Fits(sh, s) && InShape(sh, e) && msr != 0.0
    requires |mc| == 3 && forall p :: 0 <= p < 3 ==> |mc[p]| == 3
  {
    Operated(mc[e.c], Column(sh, s, e.c_, e.r, e.r'), gamma, msr)
  }

  /** The DynamicOperate entry: ([m_r]x T(r, r'))[p][q] * gamma / Ms(r). */
  function DynEntry(sh: Shape, s: seq<real>, m: seq<real>, ms: seq<real>, gamma: real, e: Entry): real
    requires DynInputs(sh, s, ms) && |m| == sh.Dim() && InShape(sh, e)
  {
    OperatedEntry(sh, s, MomentCross(sh, m, e.r), gamma, ms[e.r], e)
  }

  lemma {:induction false} CrossColumnOrthogonal(mx: real, my: real, mz: real, a: real, b: real, c: real, f: real)
    ensures mx * ((0.0 + 0.0 * a + -mz * b + my * c) * f) + my * ((0.0 + mz * a + 0.0 * b + -mx * c) * f)
      + mz * ((0.0 + -my * a + mx * b + 0.0 * c) * f) == 0.0
  {
    var u0, u1, u2 := 0.0 + 0.0 * a + -mz * b + my * c, 0.0 + mz * a + 0.0 * b + -mx * c, 0.0 + -my * a + mx * b + 0.0 * c;
    calc {
      mx * (u0 * f) + my * (u1 * f) + mz * (u2 * f);
      (mx * u0 + my * u1 + mz * u2) * f;
      { assert mx * u0 + my * u1 + mz * u2 == 0.0; }
      0.0 * f;
    }
  }

  lemma {:induction false} Rescale(u: real, gamma: real, msr: real)
    requires msr != 0.0
    ensures u * gamma / msr == u * (gamma / msr)
  {
  }

  /** m . ([m]x col) * gamma/msr == 0, for any column. */
  lemma {:induction false} CrossOperatedOrthogonal(mx: real, my: real, mz: real, col: seq<real>, gamma: real, msr: real)
    requires |col| == 3 && msr != 0.0
    ensures var mc := CrossMatrix(mx, my, mz);
      mx * Operated(mc[0], col, gamma, msr) + my * Operated(mc[1], col, gamma, msr) + mz * Operated(mc[2], col, gamma, msr) == 0.0
  {
    var mc := CrossMatrix(mx, my, mz);
    Dot3(mc[0], col);
    Dot3(mc[1], col);
    Dot3(mc[2], col);
    Rescale(Dot(mc[0], col, 3), gamma, msr);
    Rescale(Dot(mc[1], col, 3), gamma, msr);
    Rescale(Dot(mc[2], col, 3), gamma, msr);
    CrossColumnOrthogonal(mx, my, mz, col[0], col[1], col[2], gamma / msr);
  }

  /** Every column of a DynamicOperate block is orthogonal to m_r: sum over p of m_p(r)*result[p][q] is 0. */
  lemma {:induction false} DynColumnOrthogonal(sh: Shape, s: seq<real>, m: seq<real>, ms: seq<real>, gamma: real, q: nat, r: nat, r': nat)
    requires DynInputs(sh, s, ms) && |m| == sh.Dim() && q < 3 && r < sh.N() && r' < sh.N()
    ensures m[RowIndex(sh, 0, r)] * DynEntry(sh, s, m, ms, gamma, Entry(0, q, r, r'))
      + m[RowIndex(sh, 1, r)] * DynEntry(sh, s, m, ms, gamma, Entry(1, q, r, r'))
      + m[RowIndex(sh, 2, r)] * DynEntry(sh, s, m, ms, gamma, Entry(2, q, r, r')) == 0.0
  {
    var col := Column(sh, s, q, r, r');
    CrossOperatedOrthogonal(m[RowIndex(sh, 0, r)], m[RowIndex(sh, 1, r)], m[RowIndex(sh, 2, r)], col, gamma, ms[r]);
  }

  /** A 3-component input tensor and a result of the same shape with storage of its own. */
  ghost predicate Pair(t: Tensor, res: Tensor)
  {
    t.Valid() && t.shape.nComp == 3 && res.Valid() && res.shape == t.shape && res.data != t.data
  }

  /** A 3x3 matrix, such as [m_r]x. */
  predicate Square3(mc: seq<seq<real>>)
  {
    |mc| == 3 && forall p :: 0 <= p < 3 ==> |mc[p]| == 3
  }

  /**
   * The r loop for one entry e of a block: the sum over k of mc[e.c][k] * T[k][e.c_],
   * added in place to the entry, which starts at zero. The three values of
   * T's column are read before the adds, which changes nothing because the
   * result is a tensor of its own.
   */
  method AccumulateEntry(t: Tensor, res: Tensor, mc: seq<seq<real>>, e: Entry)
    requires Pair(t, res)
    requires Square3(mc) && InShape(t.shape, e)
    requires res.Get(e) == 0.0
    modifies res.data
    ensures res.Get(e) == Dot(mc[e.c], Column(t.shape, t.data[..], e.c_, e.r, e.r'), 3)
    ensures forall f :: InShape(t.shape, f) && f != e ==> res.Get(f) == old(res.Get(f))
  {
    var col := [t.Get(Entry(0, e.c_, e.r, e.r')), t.Get(Entry(1, e.c_, e.r, e.r')), t.Get(Entry(2, e.c_, e.r, e.r'))];
    assert col == Column(t.shape, t.data[..], e.c_, e.r, e.r');
    ghost var before := res.data[..];
    var o := Offset(t.shape, e);
    AddProducts(res.data, o, mc[e.c], col);
    assert OnlyAt(t.shape, before, res.data[..], e);
    OnlyAtFrame(t.shape, before, res.data[..], e);
  }

  /** The adds of the r loop, each into the same slot o: a[o] grows by u[r] * w[r] for r in order. */
  method AddProducts(a: array<real>, o: nat, u: seq<real>, w: seq<real>)
    requires o < a.Length && |u| == |w|
    modifies a
    ensures a[..] == old(a[..])[o := old(a[o]) + Dot(u, w, |u|)]
  {
    var k := 0;
    while k < |u|
      invariant 0 <= k <= |u|
      invariant a[..] == old(a[..])[o := old(a[o]) + Dot(u, w, k)]
    {
      DotStep(u, w, k, w[k]);
      a[o] := a[o] + u[k] * w[k];
      k := k + 1;
    }
  }

  /** s' differs from s at most at the offset of e. */
  ghost predicate OnlyAt(sh: Shape, s: seq<real>, s': seq<real>, e: Entry)
    requires InShape(sh, e)
  {
    |s'| == |s| && forall o :: 0 <= o < |s| && o != Offset(sh, e) ==> s'[o] == s[o]
  }

  /** Entries other than e keep their values when only the offset of e changes. */
  lemma {:induction false} OnlyAtFrame(sh: Shape, s: seq<real>, s': seq<real>, e: Entry)
    requires Fits(sh, s) && InShape(sh, e) && OnlyAt(sh, s, s', e)
    ensures forall f :: InShape(sh, f) && f != e ==> At(sh, s', f) == At(sh, s, f)
  {
    forall f | InShape(sh, f) && f != e
      ensures At(sh, s', f) == At(sh, s, f)
    {
      if Offset(sh, f) == Offset(sh, e) {
        OffsetInjective(sh, e, f);
      }
    }
  }

  /** The r loop and the SetIdx rescaling for one entry (p, q) of the block between cells x and y. */
  method OperateEntry(t: Tensor, res: Tensor, mc: seq<seq<real>>, gamma: real, msr: real, x: Cell, y: Cell, p: nat, q: nat)
    requires Pair(t, res)
    requires Square3(mc) && p < 3 && q < 3 && msr != 0.0
    requires InGrid(t.shape.size, x) && InGrid(t.shape.size, y)
    requires res.Get(IdxEntry(t.shape, p, q, x, y)) == 0.0
    modifies res.data
    ensures res.Get(IdxEntry(t.shape, p, q, x, y)) == OperatedEntry(t.shape, t.data[..], mc, gamma, msr, IdxEntry(t.shape, p, q, x, y))
    ensures forall f :: InShape(t.shape, f) && f != IdxEntry(t.shape, p, q, x, y) ==> res.Get(f) == old(res.Get(f))
  {
    var e := IdxEntry(t.shape, p, q, x, y);
    AccumulateEntry(t, res, mc, e);
    var acc := res.GetIdx(p, q, x.i, x.j, x.k, y.i, y.j, y.k);
    OperatedOf(mc[p], Column(t.shape, t.data[..], q, e.r, e.r'), gamma, msr, acc);
    res.SetIdx(p, q, x.i, x.j, x.k, y.i, y.j, y.k, acc * gamma / msr);
  }

  lemma {:induction false} OperatedOf(row: seq<real>, col: seq<real>, gamma: real, msr: real, acc: real)
    requires |row| == 3 && |col| == 3 && msr != 0.0 && acc == Dot(row, col, 3)
    ensures Operated(row, col, gamma, msr) == acc * gamma / msr
  {
  }

  /** The p and q loops for the block between cells x and y, all of whose entries are still zero. */
  method OperateBlock(t: Tensor, res: Tensor, mc: seq<seq<real>>, gamma: real, msr: real, x: Cell, y: Cell)
    requires Pair(t, res)
    requires Square3(mc) && msr != 0.0
    requires InGrid(t.shape.size, x) && InGrid(t.shape.size, y)
    requires forall f :: (InShape(t.shape, f) && f.r == CellIndex(t.shape.order, t.shape.size, x)
      && f.r' == CellIndex(t.shape.order, t.shape.size, y)) ==> res.Get(f) == 0.0
    modifies res.data
    ensures forall f :: InShape(t.shape, f) ==>
      res.Get(f) == if f.r == CellIndex(t.shape.order, t.shape.size, x) && f.r' == CellIndex(t.shape.order, t.shape.size, y)
        then OperatedEntry(t.shape, t.data[..], mc, gamma, msr, f) else old(res.Get(f))
  {
    var r, r' := CellIndex(t.shape.order, t.shape.size, x), CellIndex(t.shape.order, t.shape.size, y);
    var p := 0;
    while p < 3
      invariant 0 <= p <= 3
      invariant forall f :: InShape(t.shape, f) ==>
        res.Get(f) == if f.r == r && f.r' == r' && f.c < p then OperatedEntry(t.shape, t.data[..], mc, gamma, msr, f) else old(res.Get(f))
    {
      var q := 0;
      while q < 3
        invariant 0 <= q <= 3
        invariant forall f :: InShape(t.shape, f) ==>
          res.Get(f) == if f.r == r && f.r' == r' && (f.c < p || (f.c == p && f.c_ < q))
            then OperatedEntry(t.shape, t.data[..], mc, gamma, msr, f) else old(res.Get(f))
      {
        OperateEntry(t, res, mc, gamma, msr, x, y, p, q);
        q := q + 1;
      }
      p := p + 1;
    }
  }

  /** The blocks (r0, r0') with r0 < r, or r0 == r and r0' < r', visited in storage order, hold f(e); the rest are zero. */
  ghost predicate DoneUpTo(sh: Shape, r: nat, r': nat, e: Entry)
  {
    e.r < r || (e.r == r && e.r' < r')
  }

  /** Loop state of DynamicOperate. */
  ghost predicate OperatedUpTo(sh: Shape, s: seq<real>, m: seq<real>, ms: seq<real>, gamma: real, r: nat, r': nat, cur: seq<real>)
    requires DynInputs(sh, s, ms) && |m| == sh.Dim()
  {
    Fits(sh, cur)
    && forall f :: InShape(sh, f) ==> At(sh, cur, f) == if DoneUpTo(sh, r, r', f) then DynEntry(sh, s, m, ms, gamma, f) else 0.0
  }

  /** The step of DynamicOperate's loops, for all entries at once. */
  lemma {:induction false} OperateStep(sh: Shape, s: seq<real>, m: seq<real>, ms: seq<real>, gamma: real, r: nat, r': nat, before: seq<real>, after: seq<real>)
    requires DynInputs(sh, s, ms) && |m| == sh.Dim() && r < sh.N() && r' < sh.N()
    requires OperatedUpTo(sh, s, m, ms, gamma, r, r', before) && Fits(sh, after)
    requires forall f :: InShape(sh, f) ==>
      At(sh, after, f) == if f.r == r && f.r' == r' then OperatedEntry(sh, s, MomentCross(sh, m, r), gamma, ms[r], f) else At(sh, before, f)
    ensures OperatedUpTo(sh, s, m, ms, gamma, r, r' + 1, after)
  {
  }

  /** One block of DynamicOperate. */
  method OperateCell(t: Tensor, res: Tensor, m: seq<real>, ms: seq<real>, gamma: real, mc: seq<seq<real>>, r: nat, r': nat)
    requires t.Valid() && DynInputs(t.shape, t.data[..], ms) && |m| == t.shape.Dim() && r < t.shape.N() && r' < t.shape.N()
    requires res.Valid() && res.shape == t.shape && res.data != t.data
    requires OperatedUpTo(t.shape, t.data[..], m, ms, gamma, r, r', res.data[..])
    requires mc == MomentCross(t.shape, m, r)
    modifies res.data
    ensures OperatedUpTo(t.shape, t.data[..], m, ms, gamma, r, r' + 1, res.data[..])
  {
    var sh := t.shape;
    var x, y := CellAt(ZYX, sh.size, r), CellAt(ZYX, sh.size, r');
    ghost var before := res.data[..];
    assert forall f :: InShape(sh, f) ==> res.Get(f) == At(sh, before, f);
    OperateBlock(t, res, mc, gamma, ms[r], x, y);
    ghost var after := res.data[..];
    assert forall f :: InShape(sh, f) ==> At(sh, after, f) == res.Get(f);
    OperateStep(sh, t.data[..], m, ms, gamma, r, r', before, after);
  }

  /**
   * DynamicOperate: block (r, r') of the result is (gamma/Ms(r)) [m_r]x T(r, r'),
   * built in a fresh zero tensor; T itself is not changed.
   */
  method DynamicOperate(t: Tensor, m: seq<real>, ms: seq<real>, gamma: real) returns (res: Tensor)
    requires t.Valid() && DynInputs(t.shape, t.data[..], ms) && |m| == t.shape.Dim()
    ensures fresh(res) && fresh(res.data) && res.Valid() && res.shape == t.shape
    ensures forall e :: InShape(res.shape, e) ==> res.Get(e) == DynEntry(t.shape, t.data[..], m, ms, gamma, e)
  {
    var sh := t.shape;
    res := Tensor.Zeros(sh);
    var r := 0;
    while r < sh.N()
      invariant 0 <= r <= sh.N()
      invariant fresh(res.data) && res.Valid() && res.shape == sh
      invariant OperatedUpTo(sh, t.data[..], m, ms, gamma, r, 0, res.data[..])
    {
      var mx, my, mz := m[RowIndex(sh, 0, r)], m[RowIndex(sh, 1, r)], m[RowIndex(sh, 2, r)];
      var mc := CrossMatrix(mx, my, mz);
      var r' := 0;
      while r' < sh.N()
        invariant 0 <= r' <= sh.N()
        invariant fresh(res.data) && res.Valid() && res.shape == sh
        invariant OperatedUpTo(sh, t.data[..], m, ms, gamma, r, r', res.data[..])
      {
        OperateCell(t, res, m, ms, gamma, mc, r, r');
        r' := r' + 1;
      }
      r := r + 1;
    }
    assert forall e :: InShape(sh, e) ==> res.Get(e) == At(sh, res.data[..], e);
  }

  // ---------------------------------------------------------------------
  // DynamicOperateRotated: the same operator in the frame where every moment is z.

  /** Entry e of the rotated operator with Ms(r) == msr: row 0 is -T row 1, row 1 is T row 0, row 2 is zero, all times gamma/msr. */
  function RotValue(sh: Shape, s: seq<real>, gamma: real, msr: real, e: Entry): real
    requires sh.nComp == 3 && Fits(sh, s) && InShape(sh, e) && msr != 0.0
  {
    RotFormula(At(sh, s, Entry(0, e.c_, e.r, e.r')), At(sh, s, Entry(1, e.c_, e.r, e.r')), e.c, gamma, msr)
  }

  /** Row c of the rotated operator applied to a column (t0, t1, t2): -t1, t0 and 0 for c = 0, 1, 2, times gamma/msr. */
  function RotFormula(t0: real, t1: real, c: nat, gamma: real, msr: real): real
    requires msr != 0.0
  {
    if c == 0 then -t1 * gamma / msr
    else if c == 1 then t0 * gamma / msr
    else 0.0
  }

  /**
   * What the rotated operator reads: a 3-component tensor in either storage
   * order and a non-zero Msat in every cell, given as a mumax slice (z,y,x order).
   */
  predicate RotInputs(sh: Shape, s: seq<real>, ms: seq<real>)
  {
    sh.nComp == 3 && Fits(sh, s) && |ms| == sh.N() && forall r :: 0 <= r < |ms| ==> ms[r] != 0.0
  }

  /** The Msat of the cell with tensor index r: ms[k][j][i] for that cell (i, j, k). */
  function CellMsat(sh: Shape, ms: seq<real>, r: nat): real
    requires |ms| == sh.N() && r < sh.N()
  {
    ms[SliceCell(sh.order, sh.size, r)]
  }

  /** Whatever the storage order, the Msat of cell (i, j, k) is the slice entry ms[k][j][i]. */
  lemma {:induction false} CellMsatOfCell(sh: Shape, ms: seq<real>, x: Cell)
    requires |ms| == sh.N() && InGrid(sh.size, x)
    ensures CellIndex(sh.order, sh.size, x) < sh.N() && CellIndex(ZYX, sh.size, x) < sh.N()
    ensures CellMsat(sh, ms, CellIndex(sh.order, sh.size, x)) == ms[CellIndex(ZYX, sh.size, x)]
  {
    CellAtIndex(sh.order, sh.size, x);
  }

  function RotEntry(sh: Shape, s: seq<real>, ms: seq<real>, gamma: real, e: Entry): real
    requires RotInputs(sh, s, ms) && InShape(sh, e)
  {
    RotValue(sh, s, gamma, CellMsat(sh, ms, e.r), e)
  }

  /** In the rotated frame m_r = (0, 0, 1), and there the general operator reduces to the rotated one. */
  lemma {:induction false} RotatedAgrees(sh: Shape, s: seq<real>, m: seq<real>, ms: seq<real>, gamma: real, e: Entry)
    requires DynInputs(sh, s, ms) && |m| == sh.Dim() && InShape(sh, e)
    requires m[RowIndex(sh, 0, e.r)] == 0.0 && m[RowIndex(sh, 1, e.r)] == 0.0 && m[RowIndex(sh, 2, e.r)] == 1.0
    ensures DynEntry(sh, s, m, ms, gamma, e) == RotEntry(sh, s, ms, gamma, e)
  {
    var col := Column(sh, s, e.c_, e.r, e.r');
    assert MomentCross(sh, m, e.r) == CrossMatrix(0.0, 0.0, 1.0);
    UnitCrossRow(col, e.c, gamma, ms[e.r]);
  }

  /** Row p of [z]x times a column, scaled: the rotated operator's formula. */
  lemma {:induction false} UnitCrossRow(col: seq<real>, p: nat, gamma: real, msr: real)
    requires |col| == 3 && p < 3 && msr != 0.0
    ensures Operated(CrossMatrix(0.0, 0.0, 1.0)[p], col, gamma, msr) == RotFormula(col[0], col[1], p, gamma, msr)
  {
    var row := CrossMatrix(0.0, 0.0, 1.0)[p];
    Dot3(row, col);
    if p == 0 {
      assert Dot(row, col, 3) == -col[1];
    } else if p == 1 {
      assert Dot(row, col, 3) == col[0];
    } else {
      assert Dot(row, col, 3) == 0.0;
    }
  }

  /** The q loop for the block between cells x and y, all of whose entries are still zero. */
  method RotateBlock(t: Tensor, res: Tensor, gamma: real, msr: real, x: Cell, y: Cell)
    requires Pair(t, res) && msr != 0.0
    requires InGrid(t.shape.size, x) && InGrid(t.shape.size, y)
    requires forall f :: (InShape(t.shape, f) && f.r == CellIndex(t.shape.order, t.shape.size, x)
      && f.r' == CellIndex(t.shape.order, t.shape.size, y)) ==> res.Get(f) == 0.0
    modifies res.data
    ensures forall f :: InShape(t.shape, f) ==>
      res.Get(f) == if f.r == CellIndex(t.shape.order, t.shape.size, x) && f.r' == CellIndex(t.shape.order, t.shape.size, y)
        then RotValue(t.shape, t.data[..], gamma, msr, f) else old(res.Get(f))
  {
    var r, r' := CellIndex(t.shape.order, t.shape.size, x), CellIndex(t.shape.order, t.shape.size, y);
    var q := 0;
    while q < 3
      invariant 0 <= q <= 3
      invariant forall f :: InShape(t.shape, f) ==>
        res.Get(f) == if f.r == r && f.r' == r' && f.c < 2 && f.c_ < q then RotValue(t.shape, t.data[..], gamma, msr, f) else old(res.Get(f))
    {
      RotateColumn(t, res, gamma, msr, x, y, q);
      q := q + 1;
    }
  }

  /** The two SetIdx calls for column q of the block between cells x and y. */
  method RotateColumn(t: Tensor, res: Tensor, gamma: real, msr: real, x: Cell, y: Cell, q: nat)
    requires Pair(t, res) && msr != 0.0
    requires InGrid(t.shape.size, x) && InGrid(t.shape.size, y) && q < 3
    modifies res.data
    ensures forall f :: InShape(t.shape, f) ==>
      res.Get(f) == if f.c < 2 && f.c_ == q && f.r == CellIndex(t.shape.order, t.shape.size, x)
        && f.r' == CellIndex(t.shape.order, t.shape.size, y) then RotValue(t.shape, t.data[..], gamma, msr, f) else old(res.Get(f))
  {
    RotateEntry(t, res, gamma, msr, 0, q, x, y);
    RotateEntry(t, res, gamma, msr, 1, q, x, y);
  }

  /** One SetIdx of the q loop: row c < 2 of column q in the block between cells x and y (both rows 0 and 1 of t are read; the formula uses the one it needs). */
  method RotateEntry(t: Tensor, res: Tensor, gamma: real, msr: real, c: nat, q: nat, x: Cell, y: Cell)
    requires Pair(t, res) && msr != 0.0
    requires InGrid(t.shape.size, x) && InGrid(t.shape.size, y) && c < 2 && q < 3
    modifies res.data
    ensures forall f :: InShape(t.shape, f) ==>
      res.Get(f) == if f == IdxEntry(t.shape, c, q, x, y) then RotValue(t.shape, t.data[..], gamma, msr, f) else old(res.Get(f))
  {
    var v0 := t.GetIdx(0, q, x.i, x.j, x.k, y.i, y.j, y.k);
    var v1 := t.GetIdx(1, q, x.i, x.j, x.k, y.i, y.j, y.k);
    var v := RotFormula(v0, v1, c, gamma, msr);
    res.SetIdx(c, q, x.i, x.j, x.k, y.i, y.j, y.k, v);
  }

  /** Loop state of DynamicOperateRotated. */
  ghost predicate RotatedUpTo(sh: Shape, s: seq<real>, ms: seq<real>, gamma: real, r: nat, r': nat, cur: seq<real>)
    requires RotInputs(sh, s, ms)
  {
    Fits(sh, cur)
    && forall f :: InShape(sh, f) ==> At(sh, cur, f) == if DoneUpTo(sh, r, r', f) then RotEntry(sh, s, ms, gamma, f) else 0.0
  }

  lemma {:induction false} RotateStep(sh: Shape, s: seq<real>, ms: seq<real>, gamma: real, r: nat, r': nat, before: seq<real>, after: seq<real>)
    requires RotInputs(sh, s, ms) && r < sh.N() && r' < sh.N()
    requires RotatedUpTo(sh, s, ms, gamma, r, r', before) && Fits(sh, after)
    requires forall f :: InShape(sh, f) ==>
      At(sh, after, f) == if f.r == r && f.r' == r' then RotValue(sh, s, gamma, CellMsat(sh, ms, r), f) else At(sh, before, f)
    ensures RotatedUpTo(sh, s, ms, gamma, r, r' + 1, after)
  {
  }

  /** One block of DynamicOperateRotated. */
  method RotateCell(t: Tensor, res: Tensor, ms: seq<real>, gamma: real, r: nat, r': nat)
    requires t.Valid() && RotInputs(t.shape, t.data[..], ms) && r < t.shape.N() && r' < t.shape.N()
    requires res.Valid() && res.shape == t.shape && res.data != t.data
    requires RotatedUpTo(t.shape, t.data[..], ms, gamma, r, r', res.data[..])
    modifies res.data
    ensures RotatedUpTo(t.shape, t.data[..], ms, gamma, r, r' + 1, res.data[..])
  {
    var sh := t.shape;
    var x, y := CellAt(sh.order, sh.size, r), CellAt(sh.order, sh.size, r');
    ghost var before := res.data[..];
    assert forall f :: InShape(sh, f) ==> res.Get(f) == At(sh, before, f);
    RotateBlock(t, res, gamma, CellMsat(sh, ms, r), x, y);
    ghost var after := res.data[..];
    assert forall f :: InShape(sh, f) ==> At(sh, after, f) == res.Get(f);
    RotateStep(sh, t.data[..], ms, gamma, r, r', before, after);
  }

  /**
   * DynamicOperateRotated: rows 0 and 1 of block (r, r') are -T row 1 and T row 0,
   * times gamma over the Msat of cell r read at its z,y,x slice position; row 2
   * stays zero. Built in a fresh zero tensor.
   */
  method DynamicOperateRotated(t: Tensor, ms: seq<real>, gamma: real) returns (res: Tensor)
    requires t.Valid() && RotInputs(t.shape, t.data[..], ms)
    ensures fresh(res) && fresh(res.data) && res.Valid() && res.shape == t.shape
    ensures forall e :: InShape(res.shape, e) ==> res.Get(e) == RotEntry(t.shape, t.data[..], ms, gamma, e)
  {
    var sh := t.shape;
    res := Tensor.Zeros(sh);
    var r := 0;
    while r < sh.N()
      invariant 0 <= r <= sh.N()
      invariant fresh(res.data) && res.Valid() && res.shape == sh
      invariant RotatedUpTo(sh, t.data[..], ms, gamma, r, 0, res.data[..])
    {
      var r' := 0;
      while r' < sh.N()
        invariant 0 <= r' <= sh.N()
        invariant fresh(res.data) && res.Valid() && res.shape == sh
        invariant RotatedUpTo(sh, t.data[..], ms, gamma, r, r', res.data[..])
      {
        RotateCell(t, res, ms, gamma, r, r');
        r' := r' + 1;
      }
      r := r + 1;
    }
    assert forall e :: InShape(sh, e) ==> res.Get(e) == At(sh, res.data[..], e);
  }
}
