/**
 * The system tensors of mag/systemtensors.go: the self-interaction tensor
 * (demag + exchange + uniaxial anisotropy), the linear Hamiltonian (the same
 * tensor with a Zeeman and a ground-state term added on every cell's
 * diagonal) and the dynamic operator, which multiplies every cell block by
 * (gamma/Ms)[m]x. The magnetisation M, B_ext, Msat and GammaLL enter as
 * parameters: host copies of the engine's slices in z,y,x cell order, with
 * component c of cell r at c*N + r.
 */
module SystemTensors {
  import opened Arith
  import opened Grid
  import opened Sums
  import opened Tensors
  import Demag
  import Exchange
  import Anisotropy

  /** What the three builders read from the engine. */
  datatype Engine = Engine(
    sz: Size, d: CellSize, kernel: Demag.Kernel, ms: seq<real>, mu0: real,
    ex: (Cell, Cell) -> real, ku: seq<real>, u: seq<real>)

  predicate Inputs(g: Engine)
  {
    Demag.Inputs(g.sz, g.kernel, g.ms) && Exchange.Inputs(g.sz, g.d) && Anisotropy.Inputs(g.sz, g.ku, g.u)
  }

  /** The self-interaction entry: demag, exchange and anisotropy entries, added in that order. */
  function SelfEntry(g: Engine, e: Entry): real
    requires Inputs(g) && InShape(BuilderShape(g.sz), e)
  {
    Demag.DemagEntry(g.sz, g.kernel, g.ms, g.mu0, e) + Exchange.ExchangeEntry(g.sz, g.d, g.ex, e)
      + (if e.r == e.r' then Anisotropy.BlockEntry(g.sz, g.ku, g.u, e) else 0.0)
  }

  /** The whole self-interaction tensor, in storage order. */
  function SelfTensor(g: Engine): (s: seq<real>)
    requires Inputs(g)
    ensures Fits(BuilderShape(g.sz), s)
  {
    var sh := BuilderShape(g.sz);
    seq(sh.Len(), p requires 0 <= p < sh.Len() => SelfEntry(g, EntryAt(sh, p)))
  }

  /** SelfInteractionTensor: AddTensors(DemagTensor(), ExchangeTensor(), UniAnisTensor()). */
  method SelfInteractionTensor(g: Engine) returns (t: Tensor)
    requires Inputs(g)
    ensures fresh(t) && fresh(t.data) && t.Valid() && t.shape == BuilderShape(g.sz)
    ensures forall e :: InShape(t.shape, e) ==> t.Get(e) == SelfEntry(g, e)
    ensures t.data[..] == SelfTensor(g)
  {
    var sh := BuilderShape(g.sz);
    var demag := Demag.DemagTensor(g.sz, g.kernel, g.ms, g.mu0);
    var exch := Exchange.ExchangeTensor(g.sz, g.d, g.ex);
    var anis := Anisotropy.UniAnisTensor(g.sz, g.ku, g.u);
    ghost var dd, xx, aa := demag.data[..], exch.data[..], anis.data[..];
    t := AddTensors(sh, [demag, exch, anis]);
    assert Contents([demag, exch, anis]) == [dd, xx, aa];
    SelfSum(g, dd, xx, aa);
  }

  /** The sum of the three builders' contents is the self-interaction tensor, entry by entry. */
  lemma {:induction false} SelfSum(g: Engine, dd: seq<real>, xx: seq<real>, aa: seq<real>)
    requires Inputs(g)
    requires Fits(BuilderShape(g.sz), dd) && Fits(BuilderShape(g.sz), xx) && Fits(BuilderShape(g.sz), aa)
    requires forall e :: InShape(BuilderShape(g.sz), e) ==>
      At(BuilderShape(g.sz), dd, e) == Demag.DemagEntry(g.sz, g.kernel, g.ms, g.mu0, e)
      && At(BuilderShape(g.sz), xx, e) == Exchange.ExchangeEntry(g.sz, g.d, g.ex, e)
      && At(BuilderShape(g.sz), aa, e) == (if e.r == e.r' then Anisotropy.BlockEntry(g.sz, g.ku, g.u, e) else 0.0)
    ensures AllFit(BuilderShape(g.sz), [dd, xx, aa])
    ensures forall e :: InShape(BuilderShape(g.sz), e) ==> At(BuilderShape(g.sz), Sum(BuilderShape(g.sz), [dd, xx, aa]), e) == SelfEntry(g, e)
    ensures Sum(BuilderShape(g.sz), [dd, xx, aa]) == SelfTensor(g)
  {
    var sh := BuilderShape(g.sz);
    var sum := Sum(sh, [dd, xx, aa]);
    forall e | InShape(sh, e) ensures At(sh, sum, e) == SelfEntry(g, e) {
      SumOfThreeAt(sh, dd, xx, aa, e);
    }
    forall p | 0 <= p < sh.Len() ensures sum[p] == SelfTensor(g)[p] {
      assert sum[p] == At(sh, sum, EntryAt(sh, p));
    }
  }

  // ---------------------------------------------------------------------
  // The linear Hamiltonian.

  /** What the Hamiltonian builder reads: a z,y,x-ordered 3-component tensor, and M, B_ext, Msat over its grid. */
  predicate Fields(sh: Shape, s: seq<real>, m: seq<real>, b: seq<real>, ms: seq<real>)
  {
    sh.order == ZYX && sh.nComp == 3 && Fits(sh, s) && |m| == sh.Dim() && |b| == sh.Dim() && |ms| == sh.N()
  }

  /** B_c(r)*m_c(r) summed over the first k components. */
  function ZeeUpTo(sh: Shape, m: seq<real>, b: seq<real>, r: nat, k: nat): real
    requires sh.nComp == 3 && |m| == sh.Dim() && |b| == sh.Dim() && r < sh.N() && k <= 3
  {
    if k == 0 then 0.0 else ZeeUpTo(sh, m, b, r, k - 1) + b[RowIndex(sh, k - 1, r)] * m[RowIndex(sh, k - 1, r)]
  }

  /** The Zeeman term of cell r: B_ext(r) . m(r). */
  function Zee(sh: Shape, m: seq<real>, b: seq<real>, r: nat): real
    requires sh.nComp == 3 && |m| == sh.Dim() && |b| == sh.Dim() && r < sh.N()
  {
    ZeeUpTo(sh, m, b, r, 3)
  }

  /** The term m_c(r)*m_c_(r')*T[c][c_][r][r'] for the partner cell r' with x,y,z index q. */
  function PairTerm(sh: Shape, s: seq<real>, m: seq<real>, r: nat, q: nat, c: nat, c_: nat): real
    requires sh.nComp == 3 && Fits(sh, s) && |m| == sh.Dim() && r < sh.N() && q < sh.N() && c < 3 && c_ < 3
  {
    var e := Entry(c, c_, r, SliceCell(XYZ, sh.size, q));
    Weight(sh, m, e) * At(sh, s, e)
  }

  /** The terms of component c with the first k components c_. */
  function RowUpTo(sh: Shape, s: seq<real>, m: seq<real>, r: nat, q: nat, c: nat, k: nat): real
    requires sh.nComp == 3 && Fits(sh, s) && |m| == sh.Dim() && r < sh.N() && q < sh.N() && c < 3 && k <= 3
  {
    if k == 0 then 0.0 else RowUpTo(sh, s, m, r, q, c, k - 1) + PairTerm(sh, s, m, r, q, c, k - 1)
  }

  /** The terms of partner cell q with the first k components c. */
  function PairsUpTo(sh: Shape, s: seq<real>, m: seq<real>, r: nat, q: nat, k: nat): real
    requires sh.nComp == 3 && Fits(sh, s) && |m| == sh.Dim() && r < sh.N() && q < sh.N() && k <= 3
  {
    if k == 0 then 0.0 else PairsUpTo(sh, s, m, r, q, k - 1) + RowUpTo(sh, s, m, r, q, k - 1, 3)
  }

  /** The terms of the first q partner cells, the source's i_, j_, k_ loops visiting cells in x,y,z order. */
  function GroundUpTo(sh: Shape, s: seq<real>, m: seq<real>, r: nat, q: nat): real
    requires sh.nComp == 3 && Fits(sh, s) && |m| == sh.Dim() && r < sh.N() && q <= sh.N()
  {
    if q == 0 then 0.0 else GroundUpTo(sh, s, m, r, q - 1) + PairsUpTo(sh, s, m, r, q - 1, 3)
  }

  /** The ground-state term of cell r: sum over r', c, c_ of m_c(r)*m_c_(r')*T[c][c_][r][r']. */
  function Ground(sh: Shape, s: seq<real>, m: seq<real>, r: nat): real
    requires sh.nComp == 3 && Fits(sh, s) && |m| == sh.Dim() && r < sh.N()
  {
    GroundUpTo(sh, s, m, r, sh.N())
  }

  /** The correction zee(r)*Ms(r) - gs(r) of every cell r. */
  function Corrections(sh: Shape, s: seq<real>, m: seq<real>, b: seq<real>, ms: seq<real>): (cs: seq<real>)
    requires Fields(sh, s, m, b, ms)
    ensures |cs| == sh.N()
  {
    seq(sh.N(), r requires 0 <= r < sh.N() => CorrectionOf(Zee(sh, m, b, r), ms[r], Ground(sh, s, m, r)))
  }

  /** zee*Ms - gs, the value added on the diagonal of a cell block. */
  function CorrectionOf(zee: real, msr: real, gs: real): real
  {
    zee * msr - gs
  }

  lemma {:induction false} CorrectionAt(sh: Shape, s: seq<real>, m: seq<real>, b: seq<real>, ms: seq<real>, r: nat, zee: real, gs: real)
    requires Fields(sh, s, m, b, ms) && r < sh.N() && zee == Zee(sh, m, b, r) && gs == Ground(sh, s, m, r)
    ensures Corrections(sh, s, m, b, ms)[r] == CorrectionOf(zee, ms[r], gs)
  {
  }

  /** T with cs[r] added on the diagonal of block (r, r). */
  function Patched(sh: Shape, s: seq<real>, cs: seq<real>, e: Entry): real
    requires Fits(sh, s) && |cs| == sh.N() && InShape(sh, e)
  {
    At(sh, s, e) + if e.c == e.c_ && e.r == e.r' then cs[e.r] else 0.0
  }

  /** The linear Hamiltonian entry: T, plus zee*Ms - gs on the diagonal of every cell block. */
  function HamiltonianEntry(sh: Shape, s: seq<real>, m: seq<real>, b: seq<real>, ms: seq<real>, e: Entry): real
    requires Fields(sh, s, m, b, ms) && InShape(sh, e)
  {
    Patched(sh, s, Corrections(sh, s, m, b, ms), e)
  }

  /** The gsTerm loops of cell r: partner cells in x,y,z order, then c, then c_. */
  method GroundTerm(sys: Tensor, m: seq<real>, r: nat) returns (gs: real)
    requires sys.Valid() && sys.shape.order == ZYX && sys.shape.nComp == 3 && |m| == sys.shape.Dim() && r < sys.shape.N()
    ensures gs == Ground(sys.shape, sys.data[..], m, r)
  {
    var sh := sys.shape;
    gs := 0.0;
    var q := 0;
    while q < sh.N()
      invariant 0 <= q <= sh.N()
      invariant gs == GroundUpTo(sh, sys.data[..], m, r, q)
    {
      gs := AddPairs(sys, m, r, q, gs);
      q := q + 1;
    }
  }

  /** The c and c_ loops for partner cell q, adding onto the running gsTerm. */
  method AddPairs(sys: Tensor, m: seq<real>, r: nat, q: nat, start: real) returns (gs: real)
    requires sys.Valid() && sys.shape.order == ZYX && sys.shape.nComp == 3 && |m| == sys.shape.Dim()
    requires r < sys.shape.N() && q < sys.shape.N()
    ensures gs == start + PairsUpTo(sys.shape, sys.data[..], m, r, q, 3)
  {
    var sh := sys.shape;
    ghost var s := sys.data[..];
    gs := start;
    var c := 0;
    while c < 3
      invariant 0 <= c <= 3
      invariant gs == start + PairsUpTo(sh, s, m, r, q, c)
    {
      var c_ := 0;
      while c_ < 3
        invariant 0 <= c_ <= 3
        invariant gs == start + PairsUpTo(sh, s, m, r, q, c) + RowUpTo(sh, s, m, r, q, c, c_)
      {
        gs := gs + PairTerm(sh, sys.data[..], m, r, q, c, c_);
        c_ := c_ + 1;
      }
      c := c + 1;
    }
  }

  /** The step of the source's i, j, k loops (x outermost) at which the cell with z,y,x index r is visited. */
  function Visit(sz: Size, r: nat): (q: nat)
    requires r < sz.Cells()
    ensures q < sz.Cells()
  {
    CellIndex(XYZ, sz, CellAt(ZYX, sz, r))
  }

  /** Visit and SliceCell(XYZ, ..) are inverse to each other: every cell is visited exactly once. */
  lemma {:induction false} VisitInverse(sz: Size, q: nat, r: nat)
    requires q < sz.Cells() && r < sz.Cells()
    ensures Visit(sz, r) == q <==> r == SliceCell(XYZ, sz, q)
  {
    CellAtIndex(ZYX, sz, CellAt(XYZ, sz, q));
    CellAtIndex(XYZ, sz, CellAt(ZYX, sz, r));
    assert Visit(sz, SliceCell(XYZ, sz, q)) == q;
    assert SliceCell(XYZ, sz, Visit(sz, r)) == r;
  }

  /** The three AddIdx(c, c, i, j, k, i, j, k, val) calls for one cell. */
  method AddDiagonal(t: Tensor, x: Cell, val: real)
    requires t.Valid() && t.shape.nComp == 3 && InGrid(t.shape.size, x)
    modifies t.data
    ensures forall f :: InShape(t.shape, f) ==>
      t.Get(f) == if f.c == f.c_ && f.r == f.r' && f.r == CellIndex(t.shape.order, t.shape.size, x) then old(t.Get(f)) + val else old(t.Get(f))
  {
    var r := CellIndex(t.shape.order, t.shape.size, x);
    var c := 0;
    while c < 3
      invariant 0 <= c <= 3
      invariant forall f :: InShape(t.shape, f) ==>
        t.Get(f) == if f.c == f.c_ && f.c < c && f.r == f.r' && f.r == r then old(t.Get(f)) + val else old(t.Get(f))
    {
      t.AddIdx(c, c, x.i, x.j, x.k, x.i, x.j, x.k, val);
      c := c + 1;
    }
  }

  /** The zeeTerm loop of cell r. */
  method ZeeTerm(sh: Shape, m: seq<real>, b: seq<real>, r: nat) returns (zee: real)
    requires sh.nComp == 3 && |m| == sh.Dim() && |b| == sh.Dim() && r < sh.N()
    ensures zee == Zee(sh, m, b, r)
  {
    zee := 0.0;
    var c := 0;
    while c < 3
      invariant 0 <= c <= 3
      invariant zee == ZeeUpTo(sh, m, b, r, c)
    {
      zee := zee + b[RowIndex(sh, c, r)] * m[RowIndex(sh, c, r)];
      c := c + 1;
    }
  }

  /** One step of the patching loop: the diagonal of the q-th visited cell receives its correction. */
  lemma {:induction false} PatchStep(sh: Shape, s: seq<real>, cs: seq<real>, q: nat, r: nat, e: Entry, before: real, after: real)
    requires Fits(sh, s) && |cs| == sh.N() && q < sh.N() && InShape(sh, e) && r == SliceCell(XYZ, sh.size, q)
    requires before == if Visit(sh.size, e.r) < q then Patched(sh, s, cs, e) else At(sh, s, e)
    requires after == if e.c == e.c_ && e.r == e.r' && e.r == r then before + cs[r] else before
    ensures after == if Visit(sh.size, e.r) < q + 1 then Patched(sh, s, cs, e) else At(sh, s, e)
  {
    VisitInverse(sh.size, q, e.r);
  }

  /** Loop state of the patching loops: the cells visited before step q carry their correction. */
  ghost predicate PatchedUpTo(sh: Shape, s: seq<real>, cs: seq<real>, q: nat, cur: seq<real>)
    requires Fits(sh, s) && |cs| == sh.N()
  {
    Fits(sh, cur)
    && forall e :: InShape(sh, e) ==> At(sh, cur, e) == if Visit(sh.size, e.r) < q then Patched(sh, s, cs, e) else At(sh, s, e)
  }

  /** The step of the patching loop, for all entries at once. */
  lemma {:induction false} PatchAll(sh: Shape, s: seq<real>, cs: seq<real>, q: nat, r: nat, before: seq<real>, after: seq<real>)
    requires Fits(sh, s) && |cs| == sh.N() && q < sh.N() && r == SliceCell(XYZ, sh.size, q)
    requires PatchedUpTo(sh, s, cs, q, before) && Fits(sh, after)
    requires forall e :: InShape(sh, e) ==>
      At(sh, after, e) == if e.c == e.c_ && e.r == e.r' && e.r == r then At(sh, before, e) + cs[r] else At(sh, before, e)
    ensures PatchedUpTo(sh, s, cs, q + 1, after)
  {
    forall e | InShape(sh, e)
      ensures At(sh, after, e) == if Visit(sh.size, e.r) < q + 1 then Patched(sh, s, cs, e) else At(sh, s, e)
    {
      PatchStep(sh, s, cs, q, r, e, At(sh, before, e), At(sh, after, e));
    }
  }

  /** The body of the i, j, k loops for the q-th cell in x,y,z order. */
  method PatchCell(sys: Tensor, ret: Tensor, m: seq<real>, b: seq<real>, ms: seq<real>, ghost cs: seq<real>, q: nat)
    requires sys.Valid() && Fields(sys.shape, sys.data[..], m, b, ms) && q < sys.shape.N()
    requires cs == Corrections(sys.shape, sys.data[..], m, b, ms)
    requires ret.Valid() && ret.shape == sys.shape && ret.data != sys.data
    requires PatchedUpTo(sys.shape, sys.data[..], cs, q, ret.data[..])
    modifies ret.data
    ensures PatchedUpTo(sys.shape, sys.data[..], cs, q + 1, ret.data[..])
  {
    var sh := sys.shape;
    var sz := sh.size;
    ghost var s := sys.data[..];
    var x := CellAt(XYZ, sz, q);
    var r := CellIndex(ZYX, sz, x);
    var zee := ZeeTerm(sh, m, b, r);
    var gs := GroundTerm(sys, m, r);
    CorrectionAt(sh, s, m, b, ms, r, zee, gs);
    ghost var before := ret.data[..];
    AddDiagonal(ret, x, CorrectionOf(zee, ms[r], gs));
    ghost var after := ret.data[..];
    assert forall e :: InShape(sh, e) ==> At(sh, after, e) == ret.Get(e);
    PatchAll(sh, s, cs, q, r, before, after);
  }

  /**
   * The patching loops of LinearHamiltonianTensor: a copy of the system
   * tensor, with zee*Ms - gs added on the diagonal of every cell block, the
   * gsTerm of each cell read from the unmodified system tensor.
   */
  method Hamiltonian(sys: Tensor, m: seq<real>, b: seq<real>, ms: seq<real>) returns (ret: Tensor)
    requires sys.Valid() && Fields(sys.shape, sys.data[..], m, b, ms)
    ensures fresh(ret) && fresh(ret.data) && ret.Valid() && ret.shape == sys.shape
    ensures forall e :: InShape(ret.shape, e) ==> ret.Get(e) == HamiltonianEntry(sys.shape, sys.data[..], m, b, ms, e)
  {
    ghost var cs := Corrections(sys.shape, sys.data[..], m, b, ms);
    ret := sys.Copy();
    var q := 0;
    while q < sys.shape.N()
      invariant 0 <= q <= sys.shape.N()
      invariant fresh(ret.data) && ret.Valid() && ret.shape == sys.shape
      invariant PatchedUpTo(sys.shape, sys.data[..], cs, q, ret.data[..])
    {
      PatchCell(sys, ret, m, b, ms, cs, q);
      q := q + 1;
    }
  }

  /** LinearHamiltonianTensor differs from the system tensor only on the cell-block diagonals, by zee*Ms - gs. */
  lemma {:induction false} HamiltonianPatch(sh: Shape, s: seq<real>, m: seq<real>, b: seq<real>, ms: seq<real>, e: Entry)
    requires Fields(sh, s, m, b, ms) && InShape(sh, e)
    ensures !(e.c == e.c_ && e.r == e.r') ==> HamiltonianEntry(sh, s, m, b, ms, e) == At(sh, s, e)
    ensures e.c == e.c_ && e.r == e.r' ==>
      HamiltonianEntry(sh, s, m, b, ms, e) == At(sh, s, e) + (Zee(sh, m, b, e.r) * ms[e.r] - Ground(sh, s, m, e.r))
  {
    var zee, gs := Zee(sh, m, b, e.r), Ground(sh, s, m, e.r);
    CorrectionAt(sh, s, m, b, ms, e.r, zee, gs);
    assert CorrectionOf(zee, ms[e.r], gs) == zee * ms[e.r] - gs;
  }

  /** LinearHamiltonianTensor: the self-interaction tensor patched on its cell-block diagonals. */
  method LinearHamiltonianTensor(g: Engine, m: seq<real>, b: seq<real>) returns (ret: Tensor)
    requires Inputs(g) && |m| == 3 * g.sz.Cells() && |b| == 3 * g.sz.Cells()
    ensures fresh(ret) && ret.Valid() && ret.shape == BuilderShape(g.sz)
    ensures forall e :: InShape(ret.shape, e) ==> ret.Get(e) == HamiltonianEntry(ret.shape, SelfTensor(g), m, b, g.ms, e)
  {
    var sys := SelfInteractionTensor(g);
    ret := Hamiltonian(sys, m, b, g.ms);
  }
}
