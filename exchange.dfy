/**
 * The exchange self-interaction (mag/exchange.go): a nearest-neighbour
 * stencil built by one pass per axis over a zero tensor. Along each axis,
 * every cell couples to its neighbours with -2/D^2 times the exchange
 * coefficient of the pair, and its diagonal receives minus those couplings.
 * The x pass sets the diagonal; the y and z passes add to it. There is no z
 * pass for a single layer. The exchange coefficient between two cells
 * (ExchangeAtCell) and the cell size enter as parameters.
 */
module Exchange {
  import opened Grid
  import opened Sums
  import opened Tensors

  datatype Axis = X | Y | Z

  /** The coordinate of x along axis a. */
  function Coord(x: Cell, a: Axis): nat
  {
    match a
    case X => x.i
    case Y => x.j
    case Z => x.k
  }

  function Extent(sz: Size, a: Axis): nat
  {
    match a
    case X => sz.nx
    case Y => sz.ny
    case Z => sz.nz
  }

  /** x moved to coordinate p along axis a. */
  function Shift(x: Cell, a: Axis, p: nat): (y: Cell)
    ensures Coord(y, a) == p
  {
    match a
    case X => Cell(p, x.j, x.k)
    case Y => Cell(x.i, p, x.k)
    case Z => Cell(x.i, x.j, p)
  }

  /** y is a nearest neighbour of x along axis a. */
  predicate Along(a: Axis, x: Cell, y: Cell)
  {
    Shift(x, a, 0) == Shift(y, a, 0) && (Coord(y, a) == Coord(x, a) + 1 || Coord(x, a) == Coord(y, a) + 1)
  }

  /** The axes the builder visits: x and y always, z only for more than one layer. */
  predicate Active(sz: Size, a: Axis)
  {
    a != Z || sz.nz > 1
  }

  /** What the source needs: indices 1 and N-2 exist along every visited axis, and D is not zero. */
  predicate Inputs(sz: Size, d: CellSize)
  {
    sz.nx >= 2 && sz.ny >= 2 && sz.nz >= 1 && d.dx != 0.0 && d.dy != 0.0 && (sz.nz > 1 ==> d.dz != 0.0)
  }

  /** -2/D^2 for the cell size D along axis a. */
  function Factor(d: CellSize, a: Axis): real
    requires a == X ==> d.dx != 0.0
    requires a == Y ==> d.dy != 0.0
    requires a == Z ==> d.dz != 0.0
  {
    match a
    case X => -2.0 * (1.0 / (d.dx * d.dx))
    case Y => -2.0 * (1.0 / (d.dy * d.dy))
    case Z => -2.0 * (1.0 / (d.dz * d.dz))
  }

  predicate FactorOk(d: CellSize, a: Axis)
  {
    (a == X ==> d.dx != 0.0) && (a == Y ==> d.dy != 0.0) && (a == Z ==> d.dz != 0.0)
  }

  /** The coupling of x to its neighbour y along a: -2/D^2 * ExchangeAtCell(x, y). */
  function Coupling(d: CellSize, ex: (Cell, Cell) -> real, a: Axis, x: Cell, y: Cell): real
    requires FactorOk(d, a)
  {
    Factor(d, a) * ex(x, y)
  }

  /** What an axis pass puts on the diagonal of x: -next, -prev-next or -prev. */
  function AxisDiag(sz: Size, d: CellSize, ex: (Cell, Cell) -> real, a: Axis, x: Cell): real
    requires FactorOk(d, a) && Extent(sz, a) >= 2 && Coord(x, a) < Extent(sz, a)
  {
    var p := Coord(x, a);
    if p == 0 then -Coupling(d, ex, a, x, Shift(x, a, 1))
    else if p == Extent(sz, a) - 1 then -Coupling(d, ex, a, x, Shift(x, a, p - 1))
    else -Coupling(d, ex, a, x, Shift(x, a, p - 1)) - Coupling(d, ex, a, x, Shift(x, a, p + 1))
  }

  function RowCell(sz: Size, e: Entry): Cell
    requires e.r < sz.Cells()
  {
    CellAt(ZYX, sz, e.r)
  }

  function ColCell(sz: Size, e: Entry): Cell
    requires e.r' < sz.Cells()
  {
    CellAt(ZYX, sz, e.r')
  }

  lemma {:induction false} AxisOk(sz: Size, d: CellSize, a: Axis)
    requires Inputs(sz, d) && Active(sz, a)
    ensures FactorOk(d, a) && Extent(sz, a) >= 2
  {
  }

  /**
   * The stencil: zero between different components; on the diagonal the sum
   * of what the visited axes put there; towards a neighbour along a visited
   * axis the coupling; zero everywhere else.
   */
  function ExchangeEntry(sz: Size, d: CellSize, ex: (Cell, Cell) -> real, e: Entry): real
    requires Inputs(sz, d) && InShape(BuilderShape(sz), e)
  {
    var x, y := RowCell(sz, e), ColCell(sz, e);
    if e.c != e.c_ then 0.0
    else if y == x then
      AxisDiag(sz, d, ex, X, x) + AxisDiag(sz, d, ex, Y, x) + (if sz.nz > 1 then AxisDiag(sz, d, ex, Z, x) else 0.0)
    else if Along(X, x, y) then Coupling(d, ex, X, x, y)
    else if Along(Y, x, y) then Coupling(d, ex, Y, x, y)
    else if sz.nz > 1 && Along(Z, x, y) then Coupling(d, ex, Z, x, y)
    else 0.0
  }

  // ---------------------------------------------------------------------
  // One axis pass, as the builder performs it.

  /**
   * Entry e after the pass along a has visited its row cell, given the value
   * v it had before: the diagonal is set (x pass) or added to (y, z passes),
   * the couplings towards the neighbours along a are set.
   */
  function Visited(sz: Size, d: CellSize, ex: (Cell, Cell) -> real, a: Axis, add: bool, v: real, e: Entry): real
    requires FactorOk(d, a) && Extent(sz, a) >= 2 && InShape(BuilderShape(sz), e)
  {
    var x, y := RowCell(sz, e), ColCell(sz, e);
    if e.c != e.c_ then v
    else if y == x then (if add then v + AxisDiag(sz, d, ex, a, x) else AxisDiag(sz, d, ex, a, x))
    else if Along(a, x, y) then Coupling(d, ex, a, x, y)
    else v
  }

  ghost predicate Ready(t: Tensor, sz: Size)
    reads t
  {
    t.Valid() && t.shape == BuilderShape(sz)
  }

  /** Visited in row x, component c, in terms of the column index alone. */
  lemma {:induction false} VisitedRow(sz: Size, d: CellSize, ex: (Cell, Cell) -> real, a: Axis, add: bool, x: Cell, v: real, e: Entry)
    requires FactorOk(d, a) && Extent(sz, a) >= 2 && InGrid(sz, x) && InShape(BuilderShape(sz), e)
    requires e.r == CellIndex(ZYX, sz, x) && e.c == e.c_
    ensures var p := Coord(x, a);
      Visited(sz, d, ex, a, add, v, e) ==
        if e.r' == e.r then (if add then v + AxisDiag(sz, d, ex, a, x) else AxisDiag(sz, d, ex, a, x))
        else if p > 0 && e.r' == CellIndex(ZYX, sz, Shift(x, a, p - 1)) then Coupling(d, ex, a, x, Shift(x, a, p - 1))
        else if p < Extent(sz, a) - 1 && e.r' == CellIndex(ZYX, sz, Shift(x, a, p + 1)) then Coupling(d, ex, a, x, Shift(x, a, p + 1))
        else v
  {
    var p := Coord(x, a);
    var y := ColCell(sz, e);
    CellAtIndex(ZYX, sz, x);
    assert RowCell(sz, e) == x;
    assert CellIndex(ZYX, sz, y) == e.r';
    if p > 0 {
      var w := Shift(x, a, p - 1);
      CellAtIndex(ZYX, sz, w);
      if e.r' == CellIndex(ZYX, sz, w) {
        assert y == w;
      }
    }
    if p < Extent(sz, a) - 1 {
      var w := Shift(x, a, p + 1);
      CellAtIndex(ZYX, sz, w);
      if e.r' == CellIndex(ZYX, sz, w) {
        assert y == w;
      }
    }
    if Along(a, x, y) {
      if Coord(y, a) + 1 == p {
        assert y == Shift(x, a, p - 1);
      } else {
        assert y == Shift(x, a, p + 1);
      }
    }
  }

  /**
   * The writes of one cell x for one component c: the diagonal (set, or
   * added to), then the coupling towards the previous and the next
   * neighbour along a, where they exist.
   */
  method CellComponent(t: Tensor, sz: Size, d: CellSize, ex: (Cell, Cell) -> real, a: Axis, add: bool,
                       x: Cell, c: nat, prev: real, next: real)
    requires Ready(t, sz) && FactorOk(d, a) && Extent(sz, a) >= 2 && InGrid(sz, x) && c < 3
    requires Coord(x, a) > 0 ==> prev == Coupling(d, ex, a, x, Shift(x, a, Coord(x, a) - 1))
    requires Coord(x, a) < Extent(sz, a) - 1 ==> next == Coupling(d, ex, a, x, Shift(x, a, Coord(x, a) + 1))
    modifies t.data
    ensures forall e :: InShape(t.shape, e) ==>
      t.Get(e) == if e.r == CellIndex(ZYX, sz, x) && e.c == c && e.c_ == c
        then Visited(sz, d, ex, a, add, old(t.Get(e)), e) else old(t.Get(e))
  {
    var sh := t.shape;
    var p, n := Coord(x, a), Extent(sz, a);
    var rx := CellIndex(ZYX, sz, x);
    var dv := if p == 0 then -next else if p == n - 1 then -prev else -prev - next;
    assert dv == AxisDiag(sz, d, ex, a, x);
    WriteDiag(t, sz, c, x, add, dv);
    CellAtIndex(ZYX, sz, x);
    if p > 0 {
      var y := Shift(x, a, p - 1);
      CellAtIndex(ZYX, sz, y);
      WriteAt(t, sz, c, x, y, prev);
    }
    if p < n - 1 {
      var y := Shift(x, a, p + 1);
      CellAtIndex(ZYX, sz, y);
      if p > 0 {
        CellAtIndex(ZYX, sz, Shift(x, a, p - 1));
      }
      WriteAt(t, sz, c, x, y, next);
    }
    forall e | InShape(sh, e) && e.r == rx && e.c == c && e.c_ == c
      ensures t.Get(e) == Visited(sz, d, ex, a, add, old(t.Get(e)), e)
    {
      VisitedRow(sz, d, ex, a, add, x, old(t.Get(e)), e);
    }
  }

  /** The diagonal write of cell x, component c: SetIdx, or AddIdx when add. */
  method WriteDiag(t: Tensor, sz: Size, c: nat, x: Cell, add: bool, v: real)
    requires Ready(t, sz) && InGrid(sz, x) && c < 3
    modifies t.data
    ensures forall e :: InShape(t.shape, e) ==>
      t.Get(e) == if e == Entry(c, c, CellIndex(ZYX, sz, x), CellIndex(ZYX, sz, x))
        then (if add then old(t.Get(e)) + v else v) else old(t.Get(e))
  {
    assert IdxEntry(t.shape, c, c, x, x) == Entry(c, c, CellIndex(ZYX, sz, x), CellIndex(ZYX, sz, x));
    if add {
      t.AddIdx(c, c, x.i, x.j, x.k, x.i, x.j, x.k, v);
    } else {
      t.SetIdx(c, c, x.i, x.j, x.k, x.i, x.j, x.k, v);
    }
  }

  /** The coupling write between cells x and y, component c. */
  method WriteAt(t: Tensor, sz: Size, c: nat, x: Cell, y: Cell, v: real)
    requires Ready(t, sz) && InGrid(sz, x) && InGrid(sz, y) && c < 3
    modifies t.data
    ensures forall e :: InShape(t.shape, e) ==>
      t.Get(e) == if e == Entry(c, c, CellIndex(ZYX, sz, x), CellIndex(ZYX, sz, y)) then v else old(t.Get(e))
  {
    assert IdxEntry(t.shape, c, c, x, y) == Entry(c, c, CellIndex(ZYX, sz, x), CellIndex(ZYX, sz, y));
    t.SetIdx(c, c, x.i, x.j, x.k, y.i, y.j, y.k, v);
  }

  /** All writes of cell x in the pass along a: prev and next as the source computes them, then c = 0, 1, 2. */
  method CellStep(t: Tensor, sz: Size, d: CellSize, ex: (Cell, Cell) -> real, a: Axis, add: bool, x: Cell)
    requires Ready(t, sz) && FactorOk(d, a) && Extent(sz, a) >= 2 && InGrid(sz, x)
    modifies t.data
    ensures forall e :: InShape(t.shape, e) ==>
      t.Get(e) == if e.r == CellIndex(ZYX, sz, x) then Visited(sz, d, ex, a, add, old(t.Get(e)), e) else old(t.Get(e))
  {
    var p, n := Coord(x, a), Extent(sz, a);
    var prev, next := 0.0, 0.0;
    if p < n - 1 {
      next := Factor(d, a) * ex(x, Shift(x, a, p + 1));
    }
    if p > 0 {
      prev := Factor(d, a) * ex(x, Shift(x, a, p - 1));
    }
    var c := 0;
    while c < 3
      invariant 0 <= c <= 3
      invariant forall e :: InShape(t.shape, e) ==>
        t.Get(e) == if e.r == CellIndex(ZYX, sz, x) && e.c == e.c_ && e.c < c
          then Visited(sz, d, ex, a, add, old(t.Get(e)), e) else old(t.Get(e))
    {
      CellComponent(t, sz, d, ex, a, add, x, c, prev, next);
      c := c + 1;
    }
  }

  /** x lies on the line through base along a. */
  predicate OnLine(x: Cell, a: Axis, base: Cell)
  {
    Shift(x, a, 0) == base
  }

  /** The row cell of e is y exactly when e.r is y's index. */
  lemma {:induction false} RowIs(sz: Size, e: Entry, y: Cell)
    requires e.r < sz.Cells() && InGrid(sz, y)
    ensures (e.r == CellIndex(ZYX, sz, y)) == (RowCell(sz, e) == y)
  {
    CellAtIndex(ZYX, sz, y);
  }

  /** The line through base along a: its first cell, the interior cells in order, its last cell. */
  method Line(t: Tensor, sz: Size, d: CellSize, ex: (Cell, Cell) -> real, a: Axis, add: bool, base: Cell)
    requires Ready(t, sz) && FactorOk(d, a) && Extent(sz, a) >= 2 && InGrid(sz, base) && Coord(base, a) == 0
    modifies t.data
    ensures forall e :: InShape(t.shape, e) ==>
      t.Get(e) == if OnLine(RowCell(sz, e), a, base) then Visited(sz, d, ex, a, add, old(t.Get(e)), e) else old(t.Get(e))
  {
    var n := Extent(sz, a);
    CellStep(t, sz, d, ex, a, add, base);
    forall e | InShape(t.shape, e) {
      RowIs(sz, e, base);
    }
    var p := 1;
    while p < n - 1
      invariant 1 <= p <= n - 1
      invariant forall e :: InShape(t.shape, e) ==>
        t.Get(e) == if OnLine(RowCell(sz, e), a, base) && Coord(RowCell(sz, e), a) < p
          then Visited(sz, d, ex, a, add, old(t.Get(e)), e) else old(t.Get(e))
    {
      var x := Shift(base, a, p);
      CellStep(t, sz, d, ex, a, add, x);
      forall e | InShape(t.shape, e) {
        RowIs(sz, e, x);
      }
      p := p + 1;
    }
    var x := Shift(base, a, n - 1);
    CellStep(t, sz, d, ex, a, add, x);
    forall e | InShape(t.shape, e) {
      RowIs(sz, e, x);
    }
  }

  /** The loop nesting of the pass along a: (z, y) lines for x, (z, x) lines for y, (y, x) lines for z. */
  function Outer(a: Axis): Axis
  {
    match a
    case X => Z
    case Y => Z
    case Z => Y
  }

  function Inner(a: Axis): Axis
  {
    match a
    case X => Y
    case Y => X
    case Z => X
  }

  /** The first cell of the line at outer coordinate o and inner coordinate q. */
  function LineBase(a: Axis, o: nat, q: nat): (b: Cell)
    ensures Coord(b, a) == 0 && Coord(b, Outer(a)) == o && Coord(b, Inner(a)) == q
  {
    Shift(Shift(Cell(0, 0, 0), Outer(a), o), Inner(a), q)
  }

  lemma {:induction false} LineOf(a: Axis, x: Cell)
    ensures OnLine(x, a, LineBase(a, Coord(x, Outer(a)), Coord(x, Inner(a))))
  {
  }

  lemma {:induction false} OnLineCoords(a: Axis, x: Cell, o: nat, q: nat)
    ensures OnLine(x, a, LineBase(a, o, q)) == (Coord(x, Outer(a)) == o && Coord(x, Inner(a)) == q)
  {
  }

  /** One axis pass: every line, the outer coordinate slow and the inner one fast. */
  method Pass(t: Tensor, sz: Size, d: CellSize, ex: (Cell, Cell) -> real, a: Axis, add: bool)
    requires Ready(t, sz) && FactorOk(d, a) && Extent(sz, a) >= 2
    modifies t.data
    ensures forall e :: InShape(t.shape, e) ==> t.Get(e) == Visited(sz, d, ex, a, add, old(t.Get(e)), e)
  {
    var o := 0;
    while o < Extent(sz, Outer(a))
      invariant 0 <= o <= Extent(sz, Outer(a))
      invariant forall e :: InShape(t.shape, e) ==>
        t.Get(e) == if Coord(RowCell(sz, e), Outer(a)) < o
          then Visited(sz, d, ex, a, add, old(t.Get(e)), e) else old(t.Get(e))
    {
      var q := 0;
      while q < Extent(sz, Inner(a))
        invariant 0 <= q <= Extent(sz, Inner(a))
        invariant forall e :: InShape(t.shape, e) ==>
          t.Get(e) == if Coord(RowCell(sz, e), Outer(a)) < o || (Coord(RowCell(sz, e), Outer(a)) == o && Coord(RowCell(sz, e), Inner(a)) < q)
            then Visited(sz, d, ex, a, add, old(t.Get(e)), e) else old(t.Get(e))
      {
        var base := LineBase(a, o, q);
        assert InGrid(sz, base) by {
          assert a != Outer(a) && a != Inner(a) && Outer(a) != Inner(a);
        }
        Line(t, sz, d, ex, a, add, base);
        forall e | InShape(t.shape, e) {
          OnLineCoords(a, RowCell(sz, e), o, q);
        }
        q := q + 1;
      }
      o := o + 1;
    }
  }

  // ---------------------------------------------------------------------
  // The whole builder and the properties of the stencil.

  /** y is a neighbour of x along at most one axis, and never x itself. */
  lemma {:induction false} AlongExclusive(a: Axis, b: Axis, x: Cell, y: Cell)
    requires Along(a, x, y) && Along(b, x, y)
    ensures a == b && y != x
  {
  }

  /**
   * Running the x pass (setting the diagonal), the y pass and, for more than
   * one layer, the z pass (adding to the diagonal) over zeros yields the stencil.
   */
  lemma {:induction false} Staged(sz: Size, d: CellSize, ex: (Cell, Cell) -> real, e: Entry)
    requires Inputs(sz, d) && InShape(BuilderShape(sz), e)
    ensures var v1 := Visited(sz, d, ex, X, false, 0.0, e);
      var v2 := Visited(sz, d, ex, Y, true, v1, e);
      (if sz.nz > 1 then Visited(sz, d, ex, Z, true, v2, e) else v2) == ExchangeEntry(sz, d, ex, e)
  {
    var x, y := RowCell(sz, e), ColCell(sz, e);
    if Along(X, x, y) {
      if Along(Y, x, y) { AlongExclusive(X, Y, x, y); }
      if Along(Z, x, y) { AlongExclusive(X, Z, x, y); }
    } else if Along(Y, x, y) {
      if Along(Z, x, y) { AlongExclusive(Y, Z, x, y); }
    }
  }

  /** ExchangeTensor: the stencil, built by the three axis passes over a fresh zero tensor. */
  method ExchangeTensor(sz: Size, d: CellSize, ex: (Cell, Cell) -> real) returns (t: Tensor)
    requires Inputs(sz, d)
    ensures fresh(t) && fresh(t.data) && Ready(t, sz)
    ensures forall e :: InShape(t.shape, e) ==> t.Get(e) == ExchangeEntry(sz, d, ex, e)
  {
    t := Tensor.Zeros(BuilderShape(sz));
    Pass(t, sz, d, ex, X, false);
    ghost var s1 := t.data[..];
    assert forall e :: InShape(t.shape, e) ==> At(t.shape, s1, e) == Visited(sz, d, ex, X, false, 0.0, e);
    Pass(t, sz, d, ex, Y, true);
    ghost var s2 := t.data[..];
    assert forall e :: InShape(t.shape, e) ==> At(t.shape, s2, e) == Visited(sz, d, ex, Y, true, At(t.shape, s1, e), e);
    if sz.nz > 1 {
      Pass(t, sz, d, ex, Z, true);
    }
    forall e | InShape(t.shape, e) ensures t.Get(e) == ExchangeEntry(sz, d, ex, e) {
      Staged(sz, d, ex, e);
    }
  }

  /** The entries of row (c, x): the couplings of component c of cell x to every cell, in index order. */
  function Row(sz: Size, d: CellSize, ex: (Cell, Cell) -> real, c: nat, x: Cell): (row: seq<real>)
    requires Inputs(sz, d) && InGrid(sz, x) && c < 3
    ensures |row| == sz.Cells()
  {
    seq(sz.Cells(), r' requires 0 <= r' < sz.Cells() => ExchangeEntry(sz, d, ex, Entry(c, c, CellIndex(ZYX, sz, x), r')))
  }

  /** What the pass along a alone puts in row (c, x). */
  function AxisRow(sz: Size, d: CellSize, ex: (Cell, Cell) -> real, a: Axis, c: nat, x: Cell): (row: seq<real>)
    requires FactorOk(d, a) && Extent(sz, a) >= 2 && InGrid(sz, x) && c < 3
    ensures |row| == sz.Cells()
  {
    seq(sz.Cells(), r' requires 0 <= r' < sz.Cells() => Visited(sz, d, ex, a, false, 0.0, Entry(c, c, CellIndex(ZYX, sz, x), r')))
  }

  /** The stencil entry is the sum of what each visited axis contributes. */
  lemma {:induction false} EntrySplit(sz: Size, d: CellSize, ex: (Cell, Cell) -> real, e: Entry)
    requires Inputs(sz, d) && InShape(BuilderShape(sz), e)
    ensures ExchangeEntry(sz, d, ex, e) == Visited(sz, d, ex, X, false, 0.0, e) + Visited(sz, d, ex, Y, false, 0.0, e)
      + (if sz.nz > 1 then Visited(sz, d, ex, Z, false, 0.0, e) else 0.0)
  {
    var x, y := RowCell(sz, e), ColCell(sz, e);
    if Along(X, x, y) {
      if Along(Y, x, y) { AlongExclusive(X, Y, x, y); }
      if Along(Z, x, y) { AlongExclusive(X, Z, x, y); }
    } else if Along(Y, x, y) {
      if Along(Z, x, y) { AlongExclusive(Y, Z, x, y); }
    }
  }

  /** The index of the previous neighbour of x along a, or N (outside every row) at the first cell. */
  function PrevIndex(sz: Size, a: Axis, x: Cell): nat
    requires InGrid(sz, x) && Coord(x, a) < Extent(sz, a)
  {
    var p := Coord(x, a);
    if p > 0 then CellIndex(ZYX, sz, Shift(x, a, p - 1)) else sz.Cells()
  }

  /** The index of the next neighbour of x along a, or N at the last cell. */
  function NextIndex(sz: Size, a: Axis, x: Cell): nat
    requires InGrid(sz, x) && Coord(x, a) < Extent(sz, a)
  {
    var p := Coord(x, a);
    if p < Extent(sz, a) - 1 then CellIndex(ZYX, sz, Shift(x, a, p + 1)) else sz.Cells()
  }

  function PrevCoupling(sz: Size, d: CellSize, ex: (Cell, Cell) -> real, a: Axis, x: Cell): real
    requires FactorOk(d, a)
  {
    var p := Coord(x, a);
    if p > 0 then Coupling(d, ex, a, x, Shift(x, a, p - 1)) else 0.0
  }

  function NextCoupling(sz: Size, d: CellSize, ex: (Cell, Cell) -> real, a: Axis, x: Cell): real
    requires FactorOk(d, a)
  {
    var p := Coord(x, a);
    if p < Extent(sz, a) - 1 then Coupling(d, ex, a, x, Shift(x, a, p + 1)) else 0.0
  }

  /** Entry r' of the axis row: the diagonal, the previous and the next coupling, at three distinct places. */
  lemma {:induction false} AxisRowAt(sz: Size, d: CellSize, ex: (Cell, Cell) -> real, a: Axis, c: nat, x: Cell, r': nat)
    requires FactorOk(d, a) && Extent(sz, a) >= 2 && InGrid(sz, x) && c < 3 && r' < sz.Cells()
    ensures var rx := CellIndex(ZYX, sz, x);
      AxisRow(sz, d, ex, a, c, x)[r'] ==
        Point(sz.Cells(), rx, AxisDiag(sz, d, ex, a, x))[r']
        + (Point(sz.Cells(), PrevIndex(sz, a, x), PrevCoupling(sz, d, ex, a, x))[r']
           + Point(sz.Cells(), NextIndex(sz, a, x), NextCoupling(sz, d, ex, a, x))[r'])
  {
    var p := Coord(x, a);
    CellAtIndex(ZYX, sz, x);
    if p > 0 {
      CellAtIndex(ZYX, sz, Shift(x, a, p - 1));
    }
    if p < Extent(sz, a) - 1 {
      CellAtIndex(ZYX, sz, Shift(x, a, p + 1));
    }
    VisitedRow(sz, d, ex, a, false, x, 0.0, Entry(c, c, CellIndex(ZYX, sz, x), r'));
  }

  /** One axis contributes a zero row sum: its diagonal is minus its couplings. */
  lemma {:induction false} AxisRowSum(sz: Size, d: CellSize, ex: (Cell, Cell) -> real, a: Axis, c: nat, x: Cell)
    requires FactorOk(d, a) && Extent(sz, a) >= 2 && InGrid(sz, x) && c < 3
    ensures Total(AxisRow(sz, d, ex, a, c, x)) == 0.0
  {
    var n, rx := sz.Cells(), CellIndex(ZYX, sz, x);
    var row := AxisRow(sz, d, ex, a, c, x);
    var diag := Point(n, rx, AxisDiag(sz, d, ex, a, x));
    var prev := Point(n, PrevIndex(sz, a, x), PrevCoupling(sz, d, ex, a, x));
    var next := Point(n, NextIndex(sz, a, x), NextCoupling(sz, d, ex, a, x));
    var both := seq(n, r' requires 0 <= r' < n => prev[r'] + next[r']);
    forall r' | 0 <= r' < n ensures row[r'] == diag[r'] + both[r'] {
      AxisRowAt(sz, d, ex, a, c, x, r');
    }
    TotalAdd(row, diag, both);
    TotalAdd(both, prev, next);
    TotalPoint(n, rx, AxisDiag(sz, d, ex, a, x));
    TotalPoint(n, PrevIndex(sz, a, x), PrevCoupling(sz, d, ex, a, x));
    TotalPoint(n, NextIndex(sz, a, x), NextCoupling(sz, d, ex, a, x));
    DiagBalances(sz, d, ex, a, x);
  }

  /** The diagonal of one axis is minus its couplings; a missing neighbour sits outside the row with coupling 0. */
  lemma {:induction false} DiagBalances(sz: Size, d: CellSize, ex: (Cell, Cell) -> real, a: Axis, x: Cell)
    requires FactorOk(d, a) && Extent(sz, a) >= 2 && InGrid(sz, x)
    ensures var n := sz.Cells();
      AxisDiag(sz, d, ex, a, x)
        + ((if PrevIndex(sz, a, x) < n then PrevCoupling(sz, d, ex, a, x) else 0.0)
           + (if NextIndex(sz, a, x) < n then NextCoupling(sz, d, ex, a, x) else 0.0)) == 0.0
  {
  }

  /** Every row of the stencil sums to zero: a uniform magnetisation feels no exchange field. */
  lemma {:induction false} RowSumZero(sz: Size, d: CellSize, ex: (Cell, Cell) -> real, c: nat, x: Cell)
    requires Inputs(sz, d) && InGrid(sz, x) && c < 3
    ensures Total(Row(sz, d, ex, c, x)) == 0.0
  {
    var n := sz.Cells();
    var row := Row(sz, d, ex, c, x);
    var rx, ry := AxisRow(sz, d, ex, X, c, x), AxisRow(sz, d, ex, Y, c, x);
    var rz := if sz.nz > 1 then AxisRow(sz, d, ex, Z, c, x) else Point(n, n, 0.0);
    var xy := seq(n, r' requires 0 <= r' < n => rx[r'] + ry[r']);
    forall r' | 0 <= r' < n ensures row[r'] == xy[r'] + rz[r'] {
      EntrySplit(sz, d, ex, Entry(c, c, CellIndex(ZYX, sz, x), r'));
    }
    TotalAdd(row, xy, rz);
    TotalAdd(xy, rx, ry);
    AxisRowSum(sz, d, ex, X, c, x);
    AxisRowSum(sz, d, ex, Y, c, x);
    if sz.nz > 1 {
      AxisRowSum(sz, d, ex, Z, c, x);
    } else {
      TotalPoint(n, n, 0.0);
    }
  }

  /** With a symmetric exchange coefficient the stencil is symmetric under swapping (c, r) with (c_, r'). */
  lemma {:induction false} Symmetric(sz: Size, d: CellSize, ex: (Cell, Cell) -> real, e: Entry)
    requires Inputs(sz, d) && InShape(BuilderShape(sz), e)
    requires forall x, y :: ex(x, y) == ex(y, x)
    ensures ExchangeEntry(sz, d, ex, e) == ExchangeEntry(sz, d, ex, Entry(e.c_, e.c, e.r', e.r))
  {
    var x, y := RowCell(sz, e), ColCell(sz, e);
    if Along(X, x, y) {
      if Along(Y, x, y) { AlongExclusive(X, Y, x, y); }
      if Along(Z, x, y) { AlongExclusive(X, Z, x, y); }
    } else if Along(Y, x, y) {
      if Along(Z, x, y) { AlongExclusive(Y, Z, x, y); }
    }
  }

  /**
   * Where the stencil is not zero: only between equal components, and only
   * on the diagonal or towards a nearest neighbour along a visited axis (so
   * never along z for a single layer). Towards such a neighbour it is the
   * coupling -2/D^2 * ExchangeAtCell of that axis.
   */
  lemma {:induction false} Support(sz: Size, d: CellSize, ex: (Cell, Cell) -> real, a: Axis, e: Entry)
    requires Inputs(sz, d) && InShape(BuilderShape(sz), e)
    ensures var x, y := RowCell(sz, e), ColCell(sz, e);
      (ExchangeEntry(sz, d, ex, e) != 0.0 ==>
        e.c == e.c_ && (e.r' == e.r || (Along(X, x, y) || Along(Y, x, y) || (sz.nz > 1 && Along(Z, x, y)))))
      && (e.c == e.c_ && Active(sz, a) && Along(a, x, y) ==> ExchangeEntry(sz, d, ex, e) == Coupling(d, ex, a, x, y))
  {
    var x, y := RowCell(sz, e), ColCell(sz, e);
    CellAtIndex(ZYX, sz, x);
    CellAtIndex(ZYX, sz, y);
    if Along(a, x, y) {
      if Along(X, x, y) { AlongExclusive(a, X, x, y); }
      if Along(Y, x, y) { AlongExclusive(a, Y, x, y); }
    }
  }

  /** A cell at either end of a line has one coupling along that axis; an interior cell has two. */
  lemma {:induction false} Boundary(sz: Size, d: CellSize, ex: (Cell, Cell) -> real, a: Axis, x: Cell)
    requires Inputs(sz, d) && Active(sz, a) && InGrid(sz, x)
    ensures var p := Coord(x, a);
      AxisDiag(sz, d, ex, a, x) ==
        (if p > 0 then -Coupling(d, ex, a, x, Shift(x, a, p - 1)) else 0.0)
        - (if p < Extent(sz, a) - 1 then Coupling(d, ex, a, x, Shift(x, a, p + 1)) else 0.0)
  {
  }
}
