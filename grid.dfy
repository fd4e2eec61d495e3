/**
 * The simulation mesh: a box of nx*ny*nz cells, and the two ways the
 * repository linearises a cell (i, j, k) into a cell index.
 */
module Grid {
  import opened Arith

  datatype Size = Size(nx: nat, ny: nat, nz: nat)
  {
    /** Number of cells, N = Nx*Ny*Nz. */
    function Cells(): nat { nx * ny * nz }
  }

  /** The extent Dx, Dy, Dz of one cell. */
  datatype CellSize = CellSize(dx: real, dy: real, dz: real)

  /** A cell position (i along x, j along y, k along z). */
  datatype Cell = Cell(i: nat, j: nat, k: nat)

  /**
   * ZYX: x is fastest, the nesting [k][j][i] of mumax slices and of
   * data/tensor.go. XYZ: z is fastest, the nesting [i][j][k] of mag/tensor.go.
   */
  datatype Order = ZYX | XYZ

  lemma {:induction false} CellsZYX(sz: Size)
    ensures sz.Cells() == (sz.nz * sz.ny) * sz.nx
  {
    calc {
      sz.nx * sz.ny * sz.nz;
      sz.nx * (sz.ny * sz.nz);
      (sz.ny * sz.nz) * sz.nx;
      (sz.nz * sz.ny) * sz.nx;
    }
  }

  /** The mesh has a cell exactly when it extends along all three axes. */
  lemma {:induction false} CellsPositive(sz: Size)
    ensures sz.Cells() > 0 <==> sz.nx > 0 && sz.ny > 0 && sz.nz > 0
  {
    if sz.nx > 0 && sz.ny > 0 && sz.nz > 0 {
      MulLe(1, sz.nx, sz.ny);
      MulLe(1, sz.nx * sz.ny, sz.nz);
    }
  }

  predicate InGrid(sz: Size, x: Cell)
  {
    x.i < sz.nx && x.j < sz.ny && x.k < sz.nz
  }

  function CellIndex(o: Order, sz: Size, x: Cell): (r: nat)
    requires InGrid(sz, x)
    ensures r < sz.Cells()
  {
    match o
    case ZYX =>
      PackBound(x.k, x.j, sz.nz, sz.ny);
      PackBound(x.k * sz.ny + x.j, x.i, sz.nz * sz.ny, sz.nx);
      CellsZYX(sz);
      (x.k * sz.ny + x.j) * sz.nx + x.i
    case XYZ =>
      PackBound(x.i, x.j, sz.nx, sz.ny);
      PackBound(x.i * sz.ny + x.j, x.k, sz.nx * sz.ny, sz.nz);
      (x.i * sz.ny + x.j) * sz.nz + x.k
  }

  /** The cell index as the source writes it out. */
  function Expanded(o: Order, sz: Size, x: Cell): nat
  {
    match o
    case ZYX => sz.nx * sz.ny * x.k + sz.nx * x.j + x.i
    case XYZ => sz.ny * sz.nz * x.i + sz.nz * x.j + x.k
  }

  /** The index written out: Nx*Ny*k + Nx*j + i for z,y,x order, Ny*Nz*i + Nz*j + k for x,y,z order. */
  lemma {:induction false} CellIndexExpanded(o: Order, sz: Size, x: Cell)
    requires InGrid(sz, x)
    ensures CellIndex(o, sz, x) == Expanded(o, sz, x)
  {
    match o
    case ZYX =>
      DistributeNat(x.k * sz.ny, x.j, sz.nx);
      assert x.k * sz.ny * sz.nx == sz.nx * sz.ny * x.k;
    case XYZ =>
      DistributeNat(x.i * sz.ny, x.j, sz.nz);
      assert x.i * sz.ny * sz.nz == sz.ny * sz.nz * x.i;
  }

  /** The cell with a given index: the inverse of CellIndex. */
  function CellAt(o: Order, sz: Size, r: nat): (x: Cell)
    requires r < sz.Cells()
    ensures InGrid(sz, x) && CellIndex(o, sz, x) == r
  {
    match o
    case ZYX =>
      CellsZYX(sz);
      UnpackBound(r, sz.nz * sz.ny, sz.nx);
      UnpackBound(r / sz.nx, sz.nz, sz.ny);
      Unpack(r, sz.nx);
      Unpack(r / sz.nx, sz.ny);
      Cell(r % sz.nx, (r / sz.nx) % sz.ny, (r / sz.nx) / sz.ny)
    case XYZ =>
      UnpackBound(r, sz.nx * sz.ny, sz.nz);
      UnpackBound(r / sz.nz, sz.nx, sz.ny);
      Unpack(r, sz.nz);
      Unpack(r / sz.nz, sz.ny);
      Cell((r / sz.nz) / sz.ny, (r / sz.nz) % sz.ny, r % sz.nz)
  }

  /** CellIndex is injective, so CellAt undoes it: the index map is a bijection onto [0, N). */
  lemma {:induction false} CellAtIndex(o: Order, sz: Size, x: Cell)
    requires InGrid(sz, x)
    ensures CellAt(o, sz, CellIndex(o, sz, x)) == x
  {
    match o
    case ZYX =>
      PackUnpack(x.k * sz.ny + x.j, x.i, sz.nx);
      PackUnpack(x.k, x.j, sz.ny);
    case XYZ =>
      PackUnpack(x.i * sz.ny + x.j, x.k, sz.nz);
      PackUnpack(x.i, x.j, sz.ny);
  }

  lemma {:induction false} CellIndexInjective(o: Order, sz: Size, x: Cell, y: Cell)
    requires InGrid(sz, x) && InGrid(sz, y)
    requires CellIndex(o, sz, x) == CellIndex(o, sz, y)
    ensures x == y
  {
    CellAtIndex(o, sz, x);
    CellAtIndex(o, sz, y);
  }

  /**
   * Where the field value of a cell stored at index r in order o sits in a
   * mumax slice, whose cells are always in z,y,x order.
   */
  function SliceCell(o: Order, sz: Size, r: nat): (s: nat)
    requires r < sz.Cells()
    ensures s < sz.Cells()
  {
    match o
    case ZYX => r
    case XYZ => CellIndex(ZYX, sz, CellAt(XYZ, sz, r))
  }

  /** Component c of the cell with index x in order o, in a field of components laid out one after another. */
  function ComponentIndex(o: Order, sz: Size, c: nat, x: Cell): nat
    requires InGrid(sz, x)
  {
    c * sz.Cells() + CellIndex(o, sz, x)
  }

  /** Distinct (component, cell) pairs have distinct indices, all below nc*N. */
  lemma {:induction false} ComponentIndexInjective(o: Order, sz: Size, nc: nat, c: nat, x: Cell, c': nat, y: Cell)
    requires c < nc && c' < nc && InGrid(sz, x) && InGrid(sz, y)
    requires ComponentIndex(o, sz, c, x) == ComponentIndex(o, sz, c', y)
    ensures ComponentIndex(o, sz, c, x) < nc * sz.Cells()
    ensures c == c' && x == y
  {
    PackBound(c, CellIndex(o, sz, x), nc, sz.Cells());
    PackUnpack(c, CellIndex(o, sz, x), sz.Cells());
    PackUnpack(c', CellIndex(o, sz, y), sz.Cells());
    CellIndexInjective(o, sz, x, y);
  }

  /** Every index below nc*N is component idx / N of the cell with index idx % N. */
  lemma {:induction false} ComponentIndexOnto(o: Order, sz: Size, nc: nat, idx: nat)
    requires idx < nc * sz.Cells()
    ensures idx / sz.Cells() < nc && ComponentIndex(o, sz, idx / sz.Cells(), CellAt(o, sz, idx % sz.Cells())) == idx
  {
    UnpackBound(idx, nc, sz.Cells());
    Unpack(idx, sz.Cells());
  }
}
