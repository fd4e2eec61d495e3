/**
 * The dense self-interaction tensor T[c][c_][r][r'] of data/tensor.go
 * (cells in z,y,x order) and mag/tensor.go (cells in x,y,z order).
 *
 * The Go type nests slices [c][c_][cell][cell']; the model stores the same
 * entries in one array, laid out in exactly that nesting order, so that entry
 * (c, c_, r, r') sits at offset ((c*nComp + c_)*N + r)*N + r'.
 */
module Tensors {
  import opened Arith
  import opened Grid
  import opened Sums
  import opened Slices
  import opened ComplexSlices

  datatype Shape = Shape(order: Order, size: Size, nComp: nat)
  {
    function N(): nat { size.Cells() }
    /** Number of stored entries, (nComp*nComp)*N*N. */
    function Len(): nat { ((nComp * nComp) * N()) * N() }
    /** Side of the flattened matrix, nComp*N. */
    function Dim(): nat { nComp * N() }
    predicate Ok() { nComp == 2 || nComp == 3 }
  }

  /** The 3-component, z,y,x-ordered shape of the tensors the builders make (ZeroTensor(3, size)). */
  function BuilderShape(sz: Size): (sh: Shape)
    ensures sh.Ok() && sh.N() == sz.Cells()
  {
    Shape(ZYX, sz, 3)
  }

  /** One tensor entry: components (c, c_) coupling cell r to cell r'. */
  datatype Entry = Entry(c: nat, c_: nat, r: nat, r': nat)

  predicate InShape(sh: Shape, e: Entry)
  {
    e.c < sh.nComp && e.c_ < sh.nComp && e.r < sh.N() && e.r' < sh.N()
  }

  function Offset(sh: Shape, e: Entry): (p: nat)
    requires InShape(sh, e)
    ensures p < sh.Len()
  {
    PackBound(e.c, e.c_, sh.nComp, sh.nComp);
    PackBound(e.c * sh.nComp + e.c_, e.r, sh.nComp * sh.nComp, sh.N());
    PackBound((e.c * sh.nComp + e.c_) * sh.N() + e.r, e.r', (sh.nComp * sh.nComp) * sh.N(), sh.N());
    ((e.c * sh.nComp + e.c_) * sh.N() + e.r) * sh.N() + e.r'
  }

  /** The entry stored at offset p: the inverse of Offset. */
  function EntryAt(sh: Shape, p: nat): (e: Entry)
    requires p < sh.Len()
    ensures InShape(sh, e) && Offset(sh, e) == p
  {
    var n, nc := sh.N(), sh.nComp;
    var p1 := p / n;
    var p2 := p1 / n;
    UnpackBound(p, (nc * nc) * n, n);
    UnpackBound(p1, nc * nc, n);
    UnpackBound(p2, nc, nc);
    Unpack(p, n);
    Unpack(p1, n);
    Unpack(p2, nc);
    var e := Entry(p2 / nc, p2 % nc, p1 % n, p % n);
    assert e.c * nc + e.c_ == p2;
    assert p2 * n + e.r == p1;
    assert p1 * n + e.r' == p;
    e
  }

  lemma {:induction false} EntryAtOffset(sh: Shape, e: Entry)
    requires InShape(sh, e)
    ensures EntryAt(sh, Offset(sh, e)) == e
  {
    var n, nc := sh.N(), sh.nComp;
    var p2 := e.c * nc + e.c_;
    var p1 := p2 * n + e.r;
    var p := p1 * n + e.r';
    assert Offset(sh, e) == p;
    PackUnpack(p1, e.r', n);
    PackUnpack(p2, e.r, n);
    PackUnpack(e.c, e.c_, nc);
  }

  lemma {:induction false} OffsetInjective(sh: Shape, e: Entry, f: Entry)
    requires InShape(sh, e) && InShape(sh, f) && Offset(sh, e) == Offset(sh, f)
    ensures e == f
  {
    EntryAtOffset(sh, e);
    EntryAtOffset(sh, f);
  }

  /** The entry at coordinates (c, c_, (i,j,k), (i_,j_,k_)), as GetIdx addresses it. */
  function IdxEntry(sh: Shape, c: nat, c_: nat, x: Cell, y: Cell): (e: Entry)
    requires c < sh.nComp && c_ < sh.nComp && InGrid(sh.size, x) && InGrid(sh.size, y)
    ensures InShape(sh, e)
  {
    Entry(c, c_, CellIndex(sh.order, sh.size, x), CellIndex(sh.order, sh.size, y))
  }

  // ---------------------------------------------------------------------
  // Value level: a tensor's contents as a sequence of Len() reals.

  predicate Fits(sh: Shape, s: seq<real>) { |s| == sh.Len() }

  function At(sh: Shape, s: seq<real>, e: Entry): real
    requires Fits(sh, s) && InShape(sh, e)
  {
    s[Offset(sh, e)]
  }

  /** Writing one entry changes that entry and no other. */
  lemma {:induction false} SetThenGet(sh: Shape, s: seq<real>, e: Entry, val: real, f: Entry)
    requires Fits(sh, s) && InShape(sh, e) && InShape(sh, f)
    ensures At(sh, s[Offset(sh, e) := val], f) == if f == e then val else At(sh, s, f)
  {
    if f != e {
      if Offset(sh, e) == Offset(sh, f) {
        OffsetInjective(sh, e, f);
      }
    }
  }

  // ---------------------------------------------------------------------
  // The flattened matrix: row c*N + r, column c_*N + r' (To1D, To2D, TSP).

  /** Row (or column) of the flattened matrix for component c of cell r. */
  function RowIndex(sh: Shape, c: nat, r: nat): (row: nat)
    requires c < sh.nComp && r < sh.N()
    ensures row < sh.Dim()
  {
    PackBound(c, r, sh.nComp, sh.N());
    c * sh.N() + r
  }

  /** The entry in row R and column C of the flattened matrix. */
  function MatrixEntry(sh: Shape, row: nat, col: nat): (e: Entry)
    requires row < sh.Dim() && col < sh.Dim()
    ensures InShape(sh, e)
    ensures RowIndex(sh, e.c, e.r) == row && RowIndex(sh, e.c_, e.r') == col
  {
    UnpackBound(row, sh.nComp, sh.N());
    UnpackBound(col, sh.nComp, sh.N());
    Unpack(row, sh.N());
    Unpack(col, sh.N());
    Entry(row / sh.N(), col / sh.N(), row % sh.N(), col % sh.N())
  }

  lemma {:induction false} MatrixEntryOfRows(sh: Shape, e: Entry)
    requires InShape(sh, e)
    ensures MatrixEntry(sh, RowIndex(sh, e.c, e.r), RowIndex(sh, e.c_, e.r')) == e
  {
    PackUnpack(e.c, e.r, sh.N());
    PackUnpack(e.c_, e.r', sh.N());
  }

  /** Position of row R, column C in the row-after-row To1D array. */
  function MatrixPos(sh: Shape, row: nat, col: nat): (o: nat)
    requires row < sh.Dim() && col < sh.Dim()
    ensures o < sh.Dim() * sh.Dim()
  {
    PackBound(row, col, sh.Dim(), sh.Dim());
    row * sh.Dim() + col
  }

  /** Position of entry e in the To1D array. */
  function FlatIndex(sh: Shape, e: Entry): (o: nat)
    requires InShape(sh, e)
    ensures o < sh.Dim() * sh.Dim()
  {
    MatrixPos(sh, RowIndex(sh, e.c, e.r), RowIndex(sh, e.c_, e.r'))
  }

  /** The entry at position o of the To1D array. */
  function FlatEntry(sh: Shape, o: nat): (e: Entry)
    requires o < sh.Dim() * sh.Dim()
    ensures InShape(sh, e) && FlatIndex(sh, e) == o
  {
    UnpackBound(o, sh.Dim(), sh.Dim());
    Unpack(o, sh.Dim());
    var e := MatrixEntry(sh, o / sh.Dim(), o % sh.Dim());
    assert MatrixPos(sh, o / sh.Dim(), o % sh.Dim()) == o;
    e
  }

  /** FlatIndex is a bijection from the entries onto [0, (nComp*N)^2). */
  lemma {:induction false} FlatIndexBijective(sh: Shape, e: Entry, o: nat)
    requires InShape(sh, e) && o < sh.Dim() * sh.Dim()
    ensures FlatEntry(sh, FlatIndex(sh, e)) == e
    ensures FlatIndex(sh, FlatEntry(sh, o)) == o
  {
    var row, col := RowIndex(sh, e.c, e.r), RowIndex(sh, e.c_, e.r');
    PackUnpack(row, col, sh.Dim());
    assert FlatIndex(sh, e) == row * sh.Dim() + col;
    MatrixEntryOfRows(sh, e);
  }

  function MatrixAt(sh: Shape, s: seq<real>, row: nat, col: nat): real
    requires Fits(sh, s) && row < sh.Dim() && col < sh.Dim()
  {
    At(sh, s, MatrixEntry(sh, row, col))
  }

  /** The contents of To1D: the flattened matrix, row after row. */
  function Flatten(sh: Shape, s: seq<real>): (f: seq<real>)
    requires Fits(sh, s)
    ensures |f| == sh.Dim() * sh.Dim()
  {
    seq(sh.Dim() * sh.Dim(), o requires 0 <= o < sh.Dim() * sh.Dim() => At(sh, s, FlatEntry(sh, o)))
  }

  /** The contents of To2D: one sequence per matrix row. */
  function Rows(sh: Shape, s: seq<real>): (m: seq<seq<real>>)
    requires Fits(sh, s)
    ensures |m| == sh.Dim() && forall row :: 0 <= row < |m| ==> |m[row]| == sh.Dim()
  {
    seq(sh.Dim(), row requires 0 <= row < sh.Dim() =>
      seq(sh.Dim(), col requires 0 <= col < sh.Dim() => MatrixAt(sh, s, row, col)))
  }

  /** To1D stores GetIdx(c, c_, r, r') at (N*c + r)*nComp*N + N*c_ + r'. */
  lemma {:induction false} FlattenAt(sh: Shape, s: seq<real>, e: Entry)
    requires Fits(sh, s) && InShape(sh, e)
    ensures Flatten(sh, s)[FlatIndex(sh, e)] == At(sh, s, e)
  {
    FlatIndexBijective(sh, e, 0);
  }

  /**
   * The To1D layout written out: GetIdx(c, c_, i, j, k, i_, j_, k_) sits at
   * row N*c + Nx*Ny*k + Nx*j + i, column N*c_ + Nx*Ny*k_ + Nx*j_ + i_ in z,y,x
   * order and at row N*c + Ny*Nz*i + Nz*j + k (likewise the column) in x,y,z order.
   */
  lemma {:induction false} To1DLayout(sh: Shape, s: seq<real>, c: nat, c_: nat, x: Cell, y: Cell)
    requires Fits(sh, s) && c < sh.nComp && c_ < sh.nComp && InGrid(sh.size, x) && InGrid(sh.size, y)
    ensures Flatten(sh, s)[MatrixPos(sh, LayoutRow(sh, c, x), LayoutRow(sh, c_, y))] == At(sh, s, IdxEntry(sh, c, c_, x, y))
  {
    FlattenAt(sh, s, IdxEntry(sh, c, c_, x, y));
  }

  /** Row N*c + Nx*Ny*k + Nx*j + i (z,y,x order) or N*c + Ny*Nz*i + Nz*j + k (x,y,z order) of component c of cell x. */
  function LayoutRow(sh: Shape, c: nat, x: Cell): (row: nat)
    requires c < sh.nComp && InGrid(sh.size, x)
    ensures row == RowIndex(sh, c, CellIndex(sh.order, sh.size, x)) && row < sh.Dim()
  {
    CellIndexExpanded(sh.order, sh.size, x);
    c * sh.N() + Expanded(sh.order, sh.size, x)
  }

  /** To2D[row][col] is To1D[row*nComp*N + col]. */
  lemma {:induction false} RowsOfFlatten(sh: Shape, s: seq<real>, row: nat, col: nat)
    requires Fits(sh, s) && row < sh.Dim() && col < sh.Dim()
    ensures Rows(sh, s)[row][col] == Flatten(sh, s)[MatrixPos(sh, row, col)]
  {
    var o := MatrixPos(sh, row, col);
    PackUnpack(row, col, sh.Dim());
    assert o / sh.Dim() == row && o % sh.Dim() == col;
    assert FlatEntry(sh, o) == MatrixEntry(sh, row, col);
  }

  /** The tensor-slice product: result[c*N + r] = sum over c_, r' of T[c][c_][r][r']*v[c_*N + r']. */
  function Product(sh: Shape, s: seq<real>, v: seq<real>): (w: seq<real>)
    requires Fits(sh, s) && |v| == sh.Dim()
    ensures |w| == sh.Dim()
  {
    seq(sh.Dim(), row requires 0 <= row < sh.Dim() => Dot(Rows(sh, s)[row], v, sh.Dim()))
  }

  /** a*u + b*w, element by element. */
  function Combine(a: real, u: seq<real>, b: real, w: seq<real>): (z: seq<real>)
    requires |u| == |w|
    ensures |z| == |u|
  {
    seq(|u|, i requires 0 <= i < |u| => a * u[i] + b * w[i])
  }

  /** The tensor-slice product is linear in the slice. */
  lemma {:induction false} ProductLinear(sh: Shape, s: seq<real>, a: real, u: seq<real>, b: real, w: seq<real>)
    requires Fits(sh, s) && |u| == sh.Dim() && |w| == sh.Dim()
    ensures Product(sh, s, Combine(a, u, b, w)) == Combine(a, Product(sh, s, u), b, Product(sh, s, w))
  {
    var d := sh.Dim();
    var rows, z := Rows(sh, s), Combine(a, u, b, w);
    var pz, pu, pw := Product(sh, s, z), Product(sh, s, u), Product(sh, s, w);
    CombineRows(rows, a, u, b, w);
    forall row | 0 <= row < d
      ensures pz[row] == Combine(a, pu, b, pw)[row]
    {
      assert pz[row] == Dot(rows[row], z, d);
      assert pu[row] == Dot(rows[row], u, d) && pw[row] == Dot(rows[row], w, d);
    }
  }

  /** Each row's dot product with a*u + b*w is a times its dot with u plus b times its dot with w. */
  lemma {:induction false} CombineRows(rows: seq<seq<real>>, a: real, u: seq<real>, b: real, w: seq<real>)
    requires |u| == |w| && forall r :: 0 <= r < |rows| ==> |rows[r]| == |u|
    ensures forall r :: 0 <= r < |rows| ==>
      Dot(rows[r], Combine(a, u, b, w), |u|) == a * Dot(rows[r], u, |u|) + b * Dot(rows[r], w, |u|)
  {
    forall r | 0 <= r < |rows|
      ensures Dot(rows[r], Combine(a, u, b, w), |u|) == a * Dot(rows[r], u, |u|) + b * Dot(rows[r], w, |u|)
    {
      DotCombine(rows[r], a, u, b, w);
    }
  }

  lemma {:induction false} DotCombine(row: seq<real>, a: real, u: seq<real>, b: real, w: seq<real>)
    requires |u| == |w| && |row| == |u|
    ensures Dot(row, Combine(a, u, b, w), |u|) == a * Dot(row, u, |u|) + b * Dot(row, w, |u|)
  {
    DotLinear(row, Combine(a, u, b, w), a, u, b, w, |u|);
  }

  // ---------------------------------------------------------------------
  // Elementwise sums of several tensors (AddTensors).

  predicate AllFit(sh: Shape, ss: seq<seq<real>>)
  {
    forall t :: 0 <= t < |ss| ==> Fits(sh, ss[t])
  }

  /** The final c, k, j, i loops of TSP: every value of res is stored at the same place of dst. */
  method StoreAll(dst: array<real>, res: array<real>)
    requires dst.Length == res.Length && dst != res
    modifies dst
    ensures dst[..] == res[..]
  {
    var p := 0;
    while p < res.Length
      invariant 0 <= p <= res.Length
      invariant forall q :: 0 <= q < p ==> dst[q] == res[q]
    {
      dst[p] := res[p];
      p := p + 1;
    }
  }

  /** The contents of AddTensors(ts...). */
  function Sum(sh: Shape, ss: seq<seq<real>>): (s: seq<real>)
    requires AllFit(sh, ss)
    ensures Fits(sh, s)
  {
    seq(sh.Len(), p requires 0 <= p < sh.Len() => SumAt(ss, p))
  }

  /** With no arguments AddTensors gives the zero tensor; with one, a copy. */
  lemma {:induction false} SumOfNoneOrOne(sh: Shape, s: seq<real>)
    requires Fits(sh, s)
    ensures Sum(sh, []) == seq(sh.Len(), p => 0.0)
    ensures Sum(sh, [s]) == s
  {
    assert [s][..0] == [];
    forall p | 0 <= p < sh.Len() ensures Sum(sh, [s])[p] == s[p] {
      assert SumAt([s], p) == SumAt([], p) + s[p];
    }
  }

  /** An entry of the sum of three tensors. */
  lemma {:induction false} SumOfThreeAt(sh: Shape, s: seq<real>, u: seq<real>, w: seq<real>, e: Entry)
    requires Fits(sh, s) && Fits(sh, u) && Fits(sh, w) && InShape(sh, e)
    ensures AllFit(sh, [s, u, w]) && At(sh, Sum(sh, [s, u, w]), e) == At(sh, s, e) + At(sh, u, e) + At(sh, w, e)
  {
    SumAtThree([s, u, w], Offset(sh, e));
  }

  // ---------------------------------------------------------------------
  // The quadratic energy form sum over (c, c_, r, r') of T*m_c(r)*m_c_(r').

  /** Index in a z,y,x-ordered vector slice of component c of the cell stored at r. */
  function FieldIndex(sh: Shape, c: nat, r: nat): (x: nat)
    requires c < sh.nComp && r < sh.N()
    ensures x < sh.Dim()
  {
    RowIndex(sh, c, SliceCell(sh.order, sh.size, r))
  }

  function Weight(sh: Shape, m: seq<real>, e: Entry): real
    requires |m| == sh.Dim() && InShape(sh, e)
  {
    m[FieldIndex(sh, e.c, e.r)] * m[FieldIndex(sh, e.c_, e.r')]
  }

  /** The weight m_c(r)*m_c_(r') of every stored entry, in storage order. */
  function Weights(sh: Shape, m: seq<real>): (ws: seq<real>)
    requires |m| == sh.Dim()
    ensures |ws| == sh.Len()
  {
    seq(sh.Len(), p requires 0 <= p < sh.Len() => Weight(sh, m, EntryAt(sh, p)))
  }

  /** Sum over all entries of T[c][c_][r][r']*m_c(r)*m_c_(r'), visited in storage order. */
  function QuadForm(sh: Shape, s: seq<real>, m: seq<real>): real
    requires Fits(sh, s) && |m| == sh.Dim()
  {
    Dot(s, Weights(sh, m), sh.Len())
  }

  function Negated(m: seq<real>): (z: seq<real>)
    ensures |z| == |m|
  {
    seq(|m|, i requires 0 <= i < |m| => -m[i])
  }

  /** The energy form of the zero tensor is 0. */
  lemma {:induction false} QuadFormOfZeros(sh: Shape, m: seq<real>)
    requires |m| == sh.Dim()
    ensures QuadForm(sh, seq(sh.Len(), p => 0.0), m) == 0.0
  {
    DotOfZeros(seq(sh.Len(), p => 0.0), Weights(sh, m), sh.Len());
  }

  function SumOfForms(sh: Shape, ss: seq<seq<real>>, m: seq<real>): real
    requires AllFit(sh, ss) && |m| == sh.Dim()
  {
    if |ss| == 0 then 0.0 else SumOfForms(sh, ss[..|ss| - 1], m) + QuadForm(sh, ss[|ss| - 1], m)
  }

  /** The energy form is additive over AddTensors. */
  lemma {:induction false} QuadFormOfSum(sh: Shape, ss: seq<seq<real>>, m: seq<real>)
    requires AllFit(sh, ss) && |m| == sh.Dim()
    ensures QuadForm(sh, Sum(sh, ss), m) == SumOfForms(sh, ss, m)
  {
    var ws := Weights(sh, m);
    if |ss| == 0 {
      DotOfZeros(Sum(sh, ss), ws, sh.Len());
    } else {
      var front := ss[..|ss| - 1];
      QuadFormOfSum(sh, front, m);
      DotAdditive(Sum(sh, ss), Sum(sh, front), ss[|ss| - 1], ws, sh.Len());
    }
  }

  /** The energy form does not change when m is negated. */
  lemma {:induction false} QuadFormNegated(sh: Shape, s: seq<real>, m: seq<real>)
    requires Fits(sh, s) && |m| == sh.Dim()
    ensures QuadForm(sh, s, Negated(m)) == QuadForm(sh, s, m)
  {
    var ws, ws' := Weights(sh, m), Weights(sh, Negated(m));
    forall p | 0 <= p < sh.Len() ensures ws'[p] == ws[p] {
      var e := EntryAt(sh, p);
      var i1, i2 := FieldIndex(sh, e.c, e.r), FieldIndex(sh, e.c_, e.r');
      NegTimesNeg(m[i1], m[i2]);
    }
    DotCongruent(s, ws', s, ws, sh.Len());
  }

  class Tensor {
    const shape: Shape
    const data: array<real>

    ghost predicate Valid()
    {
      shape.Ok() && data.Length == shape.Len()
    }

    constructor (sh: Shape, a: array<real>)
      requires sh.Ok() && a.Length == sh.Len()
      ensures shape == sh && data == a && Valid()
    {
      shape := sh;
      data := a;
    }

    function Get(e: Entry): real
      reads data
      requires Valid() && InShape(shape, e)
    {
      data[Offset(shape, e)]
    }

    /** Reads entry (c, c_) between cells (i,j,k) and (i_,j_,k_). */
    function GetIdx(c: nat, c_: nat, i: nat, j: nat, k: nat, i_: nat, j_: nat, k_: nat): (v: real)
      reads data
      requires Valid() && c < shape.nComp && c_ < shape.nComp
      requires InGrid(shape.size, Cell(i, j, k)) && InGrid(shape.size, Cell(i_, j_, k_))
      ensures v == At(shape, data[..], IdxEntry(shape, c, c_, Cell(i, j, k), Cell(i_, j_, k_)))
    {
      Get(IdxEntry(shape, c, c_, Cell(i, j, k), Cell(i_, j_, k_)))
    }

    method SetIdx(c: nat, c_: nat, i: nat, j: nat, k: nat, i_: nat, j_: nat, k_: nat, val: real)
      requires Valid() && c < shape.nComp && c_ < shape.nComp
      requires InGrid(shape.size, Cell(i, j, k)) && InGrid(shape.size, Cell(i_, j_, k_))
      modifies data
      ensures data[..] == old(data[..])[Offset(shape, IdxEntry(shape, c, c_, Cell(i, j, k), Cell(i_, j_, k_))) := val]
      ensures forall f :: InShape(shape, f) ==>
        Get(f) == if f == IdxEntry(shape, c, c_, Cell(i, j, k), Cell(i_, j_, k_)) then val else old(Get(f))
    {
      ghost var before := data[..];
      var e := IdxEntry(shape, c, c_, Cell(i, j, k), Cell(i_, j_, k_));
      data[Offset(shape, e)] := val;
      forall f | InShape(shape, f) ensures Get(f) == if f == e then val else At(shape, before, f) {
        SetThenGet(shape, before, e, val, f);
      }
    }

    /** Adds val to entry e. */
    method Add(e: Entry, val: real)
      requires Valid() && InShape(shape, e)
      modifies data
      ensures data[..] == old(data[..])[Offset(shape, e) := old(Get(e)) + val]
      ensures Get(e) == old(Get(e)) + val
      ensures forall f :: InShape(shape, f) && f != e ==> Get(f) == old(Get(f))
    {
      ghost var before := data[..];
      var p := Offset(shape, e);
      data[p] := data[p] + val;
      forall f | InShape(shape, f) && f != e ensures Get(f) == At(shape, before, f) {
        SetThenGet(shape, before, e, before[p] + val, f);
      }
    }

    method AddIdx(c: nat, c_: nat, i: nat, j: nat, k: nat, i_: nat, j_: nat, k_: nat, val: real)
      requires Valid() && c < shape.nComp && c_ < shape.nComp
      requires InGrid(shape.size, Cell(i, j, k)) && InGrid(shape.size, Cell(i_, j_, k_))
      modifies data
      ensures var p := Offset(shape, IdxEntry(shape, c, c_, Cell(i, j, k), Cell(i_, j_, k_)));
        data[..] == old(data[..])[p := old(data[p]) + val]
      ensures forall f :: InShape(shape, f) ==>
        Get(f) == if f == IdxEntry(shape, c, c_, Cell(i, j, k), Cell(i_, j_, k_)) then old(Get(f)) + val else old(Get(f))
    {
      ghost var before := data[..];
      var e := IdxEntry(shape, c, c_, Cell(i, j, k), Cell(i_, j_, k_));
      var p := Offset(shape, e);
      data[p] := data[p] + val;
      forall f | InShape(shape, f) ensures Get(f) == if f == e then At(shape, before, e) + val else At(shape, before, f) {
        SetThenGet(shape, before, e, before[p] + val, f);
      }
    }
    /** A fresh tensor whose entries are all zero. */
    static method Zeros(sh: Shape) returns (t: Tensor)
      requires sh.Ok()
      ensures fresh(t) && fresh(t.data) && t.Valid() && t.shape == sh
      ensures t.data[..] == seq(sh.Len(), p => 0.0)
    {
      var a := new real[sh.Len()];
      var p := 0;
      while p < a.Length
        invariant 0 <= p <= a.Length
        invariant forall q :: 0 <= q < p ==> a[q] == 0.0
      {
        a[p] := 0.0;
        p := p + 1;
      }
      t := new Tensor(sh, a);
    }

    /** A deep copy: equal entries in storage of its own. */
    method Copy() returns (t: Tensor)
      requires Valid()
      ensures fresh(t) && fresh(t.data) && t.Valid() && t.shape == shape
      ensures t.data[..] == data[..]
    {
      var a := new real[data.Length];
      var p := 0;
      while p < a.Length
        invariant 0 <= p <= a.Length
        invariant forall q :: 0 <= q < p ==> a[q] == data[q]
      {
        a[p] := data[p];
        p := p + 1;
      }
      t := new Tensor(shape, a);
    }

    method To1D() returns (arr: seq<real>)
      requires Valid()
      ensures arr == Flatten(shape, data[..])
    {
      var d := shape.Dim();
      var a := new real[d * d];
      var o := 0;
      while o < a.Length
        invariant 0 <= o <= a.Length
        invariant forall q :: 0 <= q < o ==> a[q] == At(shape, data[..], FlatEntry(shape, q))
      {
        a[o] := Get(FlatEntry(shape, o));
        o := o + 1;
      }
      arr := a[..];
    }

    method To2D() returns (rows: seq<seq<real>>)
      requires Valid()
      ensures rows == Rows(shape, data[..])
    {
      ghost var mat := Rows(shape, data[..]);
      var d := shape.Dim();
      var m := new seq<real>[d];
      var row := 0;
      while row < d
        invariant 0 <= row <= d
        invariant forall q :: 0 <= q < row ==> m[q] == mat[q]
      {
        var line := new real[d];
        var col := 0;
        while col < d
          modifies line
          invariant 0 <= col <= d
          invariant forall q :: 0 <= q < col ==> line[q] == mat[row][q]
        {
          line[col] := Get(MatrixEntry(shape, row, col));
          col := col + 1;
        }
        assert line[..] == mat[row];
        m[row] := line[..];
        row := row + 1;
      }
      rows := m[..];
    }

    /** Row R of the flattened matrix times v: the accumulation TSP performs for output R. */
    method RowTimes(row: nat, v: seq<real>) returns (acc: real)
      requires Valid() && |v| == shape.Dim() && row < shape.Dim()
      ensures acc == Dot(Rows(shape, data[..])[row], v, shape.Dim())
    {
      acc := DotSum(Rows(shape, data[..])[row], v);
    }

    /** The product row by row, into a fresh array. */
    method ProductArray(v: seq<real>) returns (res: array<real>)
      requires Valid() && |v| == shape.Dim()
      ensures fresh(res) && res[..] == Product(shape, data[..], v)
    {
      var d := shape.Dim();
      res := new real[d];
      var row := 0;
      while row < d
        invariant 0 <= row <= d
        invariant forall q :: 0 <= q < row ==> res[q] == Product(shape, data[..], v)[q]
      {
        res[row] := RowTimes(row, v);
        row := row + 1;
      }
    }

    /** A slice laid out like this tensor's rows: nComp components over its grid. */
    predicate Matches(v: Slice)
      reads v
    {
      v.nComp == shape.nComp && v.size == shape.size
    }

    /**
     * Tensor-slice product of the z,y,x-ordered tensor. A device slice is
     * first copied to the host; the result is returned where v lived.
     */
    method TSP(v: Slice) returns (w: Slice)
      requires Valid() && shape.order == ZYX && v.Valid() && Matches(v)
      ensures fresh(w) && fresh(w.data) && w.Valid() && Matches(w) && w.onHost == v.onHost
      ensures w.data[..] == Product(shape, data[..], v.data[..])
    {
      var h := v;
      if !v.onHost {
        h := v.HostCopy();
      }
      var res := ProductArray(h.data[..]);
      var result := new Slice(shape.nComp, shape.size, true);
      StoreAll(result.data, res);
      if v.onHost {
        w := result;
      } else {
        w := new Slice(shape.nComp, shape.size, false);
        CopyData(w, result);
      }
    }

    /** TSP applied separately to the real and the imaginary part. */
    method TCSP(v: CSlice) returns (w: CSlice)
      requires Valid() && shape.order == ZYX && v.Valid() && Matches(v.re)
      ensures fresh(w) && fresh(w.re) && fresh(w.im) && fresh(w.re.data) && fresh(w.im.data)
      ensures w.Valid() && Matches(w.re) && w.re.onHost == v.re.onHost && w.im.onHost == v.im.onHost
      ensures w.re.data[..] == Product(shape, data[..], v.re.data[..])
      ensures w.im.data[..] == Product(shape, data[..], v.im.data[..])
    {
      var r := TSP(v.re);
      var i := TSP(v.im);
      w := new CSlice(r, i);
    }

    /** Sum over all entries of T[c][c_][r][r']*m_c(r)*m_c_(r'), m in z,y,x order. */
    method QuadraticSum(m: seq<real>) returns (e: real)
      requires Valid() && |m| == shape.Dim()
      ensures e == QuadForm(shape, data[..], m)
    {
      e := DotSum(data[..], Weights(shape, m));
    }

    /** The x-major tensor's energy, half its quadratic form in m. */
    method Energy(m: seq<real>) returns (e: real)
      requires Valid() && |m| == shape.Dim()
      ensures e == QuadForm(shape, data[..], m) / 2.0
    {
      e := QuadraticSum(m);
      e := 0.5 * e;
    }
  }

  ghost function Contents(ts: seq<Tensor>): (ss: seq<seq<real>>)
    reads set t | t in ts :: t.data
    ensures |ss| == |ts| && forall i :: 0 <= i < |ts| ==> ss[i] == ts[i].data[..]
  {
    if ts == [] then [] else Contents(ts[..|ts| - 1]) + [ts[|ts| - 1].data[..]]
  }

  /** The sum over the arguments of their entry at offset p, added in argument order. */
  method EntrySum(ts: seq<Tensor>, p: nat) returns (acc: real)
    requires forall t :: 0 <= t < |ts| ==> p < ts[t].data.Length
    ensures Covers(Contents(ts), p) && acc == SumAt(Contents(ts), p)
  {
    ghost var ss := Contents(ts);
    acc := 0.0;
    var t := 0;
    while t < |ts|
      invariant 0 <= t <= |ts|
      invariant Covers(ss[..t], p) && acc == SumAt(ss[..t], p)
    {
      assert ss[..t + 1][..t] == ss[..t];
      acc := acc + ts[t].data[p];
      t := t + 1;
    }
    assert ss[..|ts|] == ss;
  }

  /** A fresh tensor holding the elementwise sum of the arguments. */
  method AddTensors(sh: Shape, ts: seq<Tensor>) returns (res: Tensor)
    requires sh.Ok() && forall t :: 0 <= t < |ts| ==> ts[t].Valid() && ts[t].shape == sh
    ensures fresh(res) && fresh(res.data) && res.Valid() && res.shape == sh
    ensures AllFit(sh, Contents(ts)) && res.data[..] == Sum(sh, Contents(ts))
  {
    ghost var ss := Contents(ts);
    assert AllFit(sh, ss);
    var a := SumArrays(ts, sh.Len());
    assert a[..] == Sum(sh, ss);
    res := new Tensor(sh, a);
  }

  /** The loops of AddTensors over arrays of len entries: entry p of the result is the sum of the arguments' entries p. */
  method SumArrays(ts: seq<Tensor>, len: nat) returns (a: array<real>)
    requires forall t :: 0 <= t < |ts| ==> ts[t].data.Length == len
    ensures fresh(a) && a.Length == len && Contents(ts) == old(Contents(ts))
    ensures forall q :: 0 <= q < len ==> Covers(Contents(ts), q) && a[q] == SumAt(Contents(ts), q)
  {
    ghost var ss := Contents(ts);
    a := new real[len];
    var p := 0;
    while p < len
      invariant 0 <= p <= len && Contents(ts) == ss
      invariant forall q :: 0 <= q < p ==> Covers(ss, q) && a[q] == SumAt(ss, q)
    {
      var acc := EntrySum(ts, p);
      a[p] := acc;
      p := p + 1;
    }
  }
}
