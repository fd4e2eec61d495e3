/**
 * The uniaxial anisotropy self-interaction (mag/anisotropy.go): one 3x3
 * block per cell on the diagonal, -2*Ku1*u u^T, and nothing between cells.
 * Ku1 (one value per cell) and the anisotropy axis AnisU (three components
 * per cell) enter as parameters, both in z,y,x cell order.
 */
module Anisotropy {
  import opened Grid
  import opened Tensors

  predicate Inputs(sz: Size, ku: seq<real>, u: seq<real>)
  {
    |ku| == sz.Cells() && |u| == 3 * sz.Cells()
  }

  /** Component c of the anisotropy axis at cell r. */
  function Axis(sz: Size, u: seq<real>, c: nat, r: nat): real
    requires |u| == 3 * sz.Cells() && c < 3 && r < sz.Cells()
  {
    u[RowIndex(BuilderShape(sz), c, r)]
  }

  /** Entry e of the block of cell r: -2*Ku1(r)*u_c(r)*u_c_(r). */
  function BlockEntry(sz: Size, ku: seq<real>, u: seq<real>, e: Entry): real
    requires Inputs(sz, ku, u) && InShape(BuilderShape(sz), e)
  {
    -2.0 * ku[e.r] * Axis(sz, u, e.c, e.r) * Axis(sz, u, e.c_, e.r)
  }

  /** The anisotropy tensor builder: a zero tensor with the cell blocks set. */
  method UniAnisTensor(sz: Size, ku: seq<real>, u: seq<real>) returns (t: Tensor)
    requires Inputs(sz, ku, u)
    ensures fresh(t) && fresh(t.data) && t.Valid() && t.shape == BuilderShape(sz)
    ensures forall e :: InShape(t.shape, e) ==>
      t.Get(e) == if e.r == e.r' then BlockEntry(sz, ku, u, e) else 0.0
  {
    var sh := BuilderShape(sz);
    t := Tensor.Zeros(sh);
    var r := 0;
    while r < sh.N()
      invariant 0 <= r <= sh.N() && t.Valid() && t.shape == sh && fresh(t.data)
      invariant forall e :: InShape(sh, e) ==> t.Get(e) == if e.r == e.r' && e.r < r then BlockEntry(sz, ku, u, e) else 0.0
    {
      SetBlock(t, sz, ku, u, r);
      r := r + 1;
    }
  }

  /** Writes the 3x3 block of cell r, components c slow and c_ fast. */
  method SetBlock(t: Tensor, sz: Size, ku: seq<real>, u: seq<real>, r: nat)
    requires Inputs(sz, ku, u) && r < sz.Cells() && t.Valid() && t.shape == BuilderShape(sz)
    modifies t.data
    ensures forall e :: InShape(t.shape, e) ==>
      t.Get(e) == if e.r == r && e.r' == r then BlockEntry(sz, ku, u, e) else old(t.Get(e))
  {
    var sh := t.shape;
    var x := CellAt(ZYX, sz, r);
    var c := 0;
    while c < 3
      invariant 0 <= c <= 3
      invariant forall e :: InShape(sh, e) ==>
        t.Get(e) == if e.r == r && e.r' == r && e.c < c then BlockEntry(sz, ku, u, e) else old(t.Get(e))
    {
      var c_ := 0;
      while c_ < 3
        invariant 0 <= c_ <= 3
        invariant forall e :: InShape(sh, e) ==>
          t.Get(e) == if e.r == r && e.r' == r && (e.c < c || (e.c == c && e.c_ < c_)) then BlockEntry(sz, ku, u, e) else old(t.Get(e))
      {
        ghost var before := t.data[..];
        var val := -2.0 * ku[r] * Axis(sz, u, c, r) * Axis(sz, u, c_, r);
        t.SetIdx(c, c_, x.i, x.j, x.k, x.i, x.j, x.k, val);
        ghost var written := Entry(c, c_, r, r);
        assert IdxEntry(sh, c, c_, x, x) == written;
        forall e | InShape(sh, e) ensures t.Get(e) == if e == written then val else At(sh, before, e) {
          SetThenGet(sh, before, written, val, e);
        }
        c_ := c_ + 1;
      }
      c := c + 1;
    }
  }

  /** Each cell block is symmetric in (c, c_). */
  lemma {:induction false} BlockSymmetric(sz: Size, ku: seq<real>, u: seq<real>, r: nat, c: nat, c_: nat)
    requires Inputs(sz, ku, u) && r < sz.Cells() && c < 3 && c_ < 3
    ensures BlockEntry(sz, ku, u, Entry(c, c_, r, r)) == BlockEntry(sz, ku, u, Entry(c_, c, r, r))
  {
  }

  /** The trace of a cell block is -2*Ku1*|u|^2. */
  lemma {:induction false} BlockTrace(sz: Size, ku: seq<real>, u: seq<real>, r: nat)
    requires Inputs(sz, ku, u) && r < sz.Cells()
    ensures var a0, a1, a2 := Axis(sz, u, 0, r), Axis(sz, u, 1, r), Axis(sz, u, 2, r);
      BlockEntry(sz, ku, u, Entry(0, 0, r, r)) + BlockEntry(sz, ku, u, Entry(1, 1, r, r)) + BlockEntry(sz, ku, u, Entry(2, 2, r, r))
        == -2.0 * ku[r] * (a0 * a0 + a1 * a1 + a2 * a2)
  {
  }
}
