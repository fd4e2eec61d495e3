/**
 * The tolerance comparisons of tests/equalities.go: an element of A is
 * flagged when its ratio to the element of B lies outside
 * [1 - maxErr, 1 + maxErr], and the comparisons return how many were
 * flagged. Nx, Ny and Nz, package variables of the tests, are the mesh size
 * sz; the slices hold their 3 components of Nx*Ny*Nz cells in z,y,x order.
 */
module Equalities {
  import opened Arith
  import opened Grid
  import opened Wrappers

  /**
   * frac > 1+maxErr || frac < 1-maxErr for frac = x/y in IEEE arithmetic:
   * for y = 0 the ratio is an infinity, outside every finite band, unless x
   * is 0 too, when it is NaN and both comparisons are false.
   */
  predicate OutOfBand(x: real, y: real, maxErr: real)
  {
    if y != 0.0 then x / y > 1.0 + maxErr || x / y < 1.0 - maxErr else x != 0.0
  }

  /** EqualScalars: 0 when A/B lies within the band, 1 otherwise. */
  function EqualScalars(a: real, b: real, maxErr: real): (n: int)
    ensures n == 0 || n == 1
    ensures b != 0.0 ==> (n == 0 <==> 1.0 - maxErr <= a / b <= 1.0 + maxErr)
    ensures b == 0.0 ==> (n == 0 <==> a == 0.0)
  {
    if OutOfBand(a, b, maxErr) then 1 else 0
  }

  /** A number is within any non-negative band around itself. */
  lemma {:induction false} EqualScalarsSelf(a: real, maxErr: real)
    requires a != 0.0 && maxErr >= 0.0
    ensures EqualScalars(a, a, maxErr) == 0
  {
    assert a / a == 1.0;
  }

  /** What is compared: two real slices, or the real and imaginary parts of two complex slices. */
  datatype Operands =
    | Reals(a: seq<real>, b: seq<real>)
    | Complexes(ar: seq<real>, br: seq<real>, ai: seq<real>, bi: seq<real>)

  /** All the slices compared hold len values. */
  predicate Fits(o: Operands, len: nat)
  {
    match o
    case Reals(a, b) => |a| == len && |b| == len
    case Complexes(ar, br, ai, bi) => |ar| == len && |br| == len && |ai| == len && |bi| == len
  }

  /** Element p is counted: its ratio, or for complex slices its real or its imaginary ratio, is out of band. */
  predicate Flagged(o: Operands, len: nat, p: nat, maxErr: real)
    requires Fits(o, len) && p < len
  {
    match o
    case Reals(a, b) => OutOfBand(a[p], b[p], maxErr)
    case Complexes(ar, br, ai, bi) => OutOfBand(ar[p], br[p], maxErr) || OutOfBand(ai[p], bi[p], maxErr)
  }

  /** The number of flagged elements among start .. start+width-1. */
  function CountRow(o: Operands, len: nat, start: nat, width: nat, maxErr: real): (n: nat)
    requires Fits(o, len) && start + width <= len
    ensures n <= width
  {
    if width == 0 then 0
    else CountRow(o, len, start, width - 1, maxErr) + (if Flagged(o, len, start + width - 1, maxErr) then 1 else 0)
  }

  /** The number of flagged elements among the first width of each of the first rows rows of nx elements. */
  function CountRows(o: Operands, len: nat, nx: nat, width: nat, rows: nat, maxErr: real): (n: nat)
    requires Fits(o, len) && width <= nx && rows * nx <= len
    ensures n <= rows * width
  {
    if rows == 0 then 0
    else
      DistributeNat(rows - 1, 1, nx);
      DistributeNat(rows - 1, 1, width);
      CountRows(o, len, nx, width, rows - 1, maxErr) + CountRow(o, len, (rows - 1) * nx, width, maxErr)
  }

  /** Component c of cell (i, j, k) is element i of row (c*Nz + k)*Ny + j: the c, k, j loops visit the rows in order. */
  lemma {:induction false} RowLayout(sz: Size, c: nat, x: Cell)
    requires InGrid(sz, x)
    ensures ComponentIndex(ZYX, sz, c, x) == ((c * sz.nz + x.k) * sz.ny + x.j) * sz.nx + x.i
  {
    CellsZYX(sz);
    DistributeNat(c * sz.nz, x.k, sz.ny);
    DistributeNat((c * sz.nz + x.k) * sz.ny, x.j, sz.nx);
    DistributeNat(c * sz.nz * sz.ny, x.k * sz.ny, sz.nx);
    DistributeNat(x.k * sz.ny, x.j, sz.nx);
    assert c * sz.Cells() == c * sz.nz * sz.ny * sz.nx;
  }

  /** The c, k and j loops visit Rows(sz) = 3*Nz*Ny rows of Nx elements, which are all the 3*Nx*Ny*Nz elements. */
  function Rows(sz: Size): (rows: nat)
    ensures rows * sz.nx == 3 * sz.Cells()
    ensures rows > 0 <==> sz.nz > 0 && sz.ny > 0
  {
    CellsZYX(sz);
    ProductPositive(sz.nz, sz.ny);
    3 * sz.nz * sz.ny
  }

  /** A product of naturals is positive exactly when both factors are. */
  lemma {:induction false} ProductPositive(a: nat, b: nat)
    ensures a * b > 0 <==> a > 0 && b > 0
  {
    if a > 0 && b > 0 {
      MulLe(1, a, b);
    }
  }

  /** Row t of rows rows of nx elements ends within them. */
  lemma {:induction false} RowFits(t: nat, rows: nat, nx: nat)
    requires t < rows
    ensures t * nx + nx == (t + 1) * nx <= rows * nx
  {
    MulLe(t + 1, rows, nx);
    DistributeNat(t, 1, nx);
  }

  /**
   * The loops of the comparisons over rows rows of nx elements, with the rows
   * of the c, k and j loops taken in order and the i loop bounded by width.
   * Reading column nx or beyond is out of range, so a width above nx panics
   * once a row is visited.
   */
  method Count(o: Operands, len: nat, nx: nat, rows: nat, width: nat, maxErr: real) returns (r: Result<nat>)
    requires Fits(o, len) && rows * nx == len
    ensures r.Panic? <==> width > nx && rows > 0
    ensures r.Ok? && width <= nx ==> r.value == CountRows(o, len, nx, width, rows, maxErr)
  {
    var n := 0;
    var t := 0;
    while t < rows
      invariant 0 <= t <= rows && (t == 0 || width <= nx)
      invariant t > 0 ==> (MulLe(t, rows, nx); n == CountRows(o, len, nx, width, t, maxErr))
      invariant t == 0 ==> n == 0
    {
      RowFits(t, rows, nx);
      var row := CountInRow(o, len, t * nx, nx, width, maxErr);
      if row.Panic? {
        return Panic(row.message);
      }
      var inRow := row.value;
      CountRowsStep(o, len, nx, width, t, maxErr);
      n := n + inRow;
      t := t + 1;
    }
    r := Ok(n);
  }

  /** The inner loop over one row of nx elements starting at start: indexing past nx panics. */
  method CountInRow(o: Operands, len: nat, start: nat, nx: nat, width: nat, maxErr: real) returns (r: Result<nat>)
    requires Fits(o, len) && start + nx <= len
    ensures r.Panic? <==> width > nx
    ensures r.Ok? ==> width <= nx && r.value == CountRow(o, len, start, width, maxErr)
  {
    var i := 0;
    var inRow := 0;
    while i < width
      invariant 0 <= i <= width && i <= nx
      invariant inRow == CountRow(o, len, start, i, maxErr)
    {
      if i >= nx {
        return Panic("index out of range");
      }
      if Flagged(o, len, start + i, maxErr) {
        inRow := inRow + 1;
      }
      i := i + 1;
    }
    r := Ok(inRow);
  }

  /** The rows counted so far and the next one. */
  lemma {:induction false} CountRowsStep(o: Operands, len: nat, nx: nat, width: nat, t: nat, maxErr: real)
    requires Fits(o, len) && width <= nx && (t + 1) * nx <= len
    ensures t * nx + width <= len && t * nx <= len
    ensures CountRows(o, len, nx, width, t + 1, maxErr)
      == (if t == 0 then 0 else CountRows(o, len, nx, width, t, maxErr)) + CountRow(o, len, t * nx, width, maxErr)
  {
    DistributeNat(t, 1, nx);
  }

  /** No element of the row is flagged exactly when its count is zero. */
  lemma {:induction false} CountRowZero(o: Operands, len: nat, start: nat, width: nat, maxErr: real)
    requires Fits(o, len) && start + width <= len
    ensures CountRow(o, len, start, width, maxErr) == 0 <==> forall p :: start <= p < start + width ==> !Flagged(o, len, p, maxErr)
  {
    if width > 0 {
      CountRowZero(o, len, start, width - 1, maxErr);
    }
  }

  /** With every row compared in full, the count is zero exactly when no element of the first rows*nx is flagged. */
  lemma {:induction false} CountRowsZero(o: Operands, len: nat, nx: nat, rows: nat, maxErr: real)
    requires Fits(o, len) && rows * nx <= len
    ensures CountRows(o, len, nx, nx, rows, maxErr) == 0 <==> forall p :: 0 <= p < rows * nx ==> !Flagged(o, len, p, maxErr)
  {
    if rows > 0 {
      RowFits(rows - 1, rows, nx);
      CountRowsZero(o, len, nx, rows - 1, maxErr);
      CountRowZero(o, len, (rows - 1) * nx, nx, maxErr);
    }
  }

  /** For real slices an element is flagged exactly when its ratio is out of band. */
  lemma {:induction false} FlaggedReals(a: seq<real>, b: seq<real>, maxErr: real)
    requires |a| == |b|
    ensures (forall p :: 0 <= p < |a| ==> !Flagged(Reals(a, b), |a|, p, maxErr))
      <==> forall p :: 0 <= p < |a| ==> !OutOfBand(a[p], b[p], maxErr)
  {
    forall p | 0 <= p < |a|
      ensures Flagged(Reals(a, b), |a|, p, maxErr) == OutOfBand(a[p], b[p], maxErr)
    {
    }
  }

  /**
   * EqualSlices as written: the x loop is bounded by Nz, so only the first
   * Nz x-indices of each row are compared, and for Nz > Nx the reads run
   * past the row and panic.
   */
  method EqualSlicesAsWritten(a: seq<real>, b: seq<real>, sz: Size, maxErr: real) returns (r: Result<nat>)
    requires |a| == 3 * sz.Cells() && |b| == 3 * sz.Cells()
    ensures r.Panic? <==> sz.nz > sz.nx && sz.ny > 0 && sz.nz > 0
    ensures r.Ok? && sz.nz <= sz.nx ==> r.value == CountRows(Reals(a, b), |a|, sz.nx, sz.nz, Rows(sz), maxErr)
  {
    r := Count(Reals(a, b), |a|, sz.nx, Rows(sz), sz.nz, maxErr);
  }

  /** On a 2 x 1 x 1 mesh the as-written bound compares only x = 0, so a mismatch at x = 1 goes uncounted. */
  lemma {:induction false} EqualSlicesSkipsColumns()
    ensures var o := Reals([1.0, 1.0, 1.0, 1.0, 1.0, 1.0], [1.0, 2.0, 1.0, 1.0, 1.0, 1.0]);
      CountRows(o, 6, 2, 1, 3, 0.1) == 0 && CountRows(o, 6, 2, 2, 3, 0.1) == 1
  {
    var o := Reals([1.0, 1.0, 1.0, 1.0, 1.0, 1.0], [1.0, 2.0, 1.0, 1.0, 1.0, 1.0]);
    assert Flagged(o, 6, 1, 0.1);
    assert !Flagged(o, 6, 0, 0.1) && !Flagged(o, 6, 2, 0.1) && !Flagged(o, 6, 3, 0.1);
    assert !Flagged(o, 6, 4, 0.1) && !Flagged(o, 6, 5, 0.1);
    assert CountRow(o, 6, 0, 1, 0.1) == 0 && CountRow(o, 6, 2, 1, 0.1) == 0 && CountRow(o, 6, 4, 1, 0.1) == 0;
    assert CountRow(o, 6, 0, 2, 0.1) == 1 && CountRow(o, 6, 2, 2, 0.1) == 0 && CountRow(o, 6, 4, 2, 0.1) == 0;
    assert CountRows(o, 6, 2, 1, 1, 0.1) == 0 && CountRows(o, 6, 2, 1, 2, 0.1) == 0;
    assert CountRows(o, 6, 2, 2, 1, 0.1) == 1 && CountRows(o, 6, 2, 2, 2, 0.1) == 1;
  }

  /** EqualSlices with the x loop bounded by Nx: the number of flagged elements, zero exactly when none is flagged. */
  method EqualSlices(a: seq<real>, b: seq<real>, sz: Size, maxErr: real) returns (n: nat)
    requires |a| == 3 * sz.Cells() && |b| == 3 * sz.Cells()
    ensures n == CountRows(Reals(a, b), |a|, sz.nx, sz.nx, Rows(sz), maxErr)
    ensures n <= |a|
    ensures n == 0 <==> forall p :: 0 <= p < |a| ==> !OutOfBand(a[p], b[p], maxErr)
  {
    var rows := Rows(sz);
    var r := Count(Reals(a, b), |a|, sz.nx, rows, sz.nx, maxErr);
    n := if r.Ok? then r.value else 0;
    CountRowsZero(Reals(a, b), |a|, sz.nx, rows, maxErr);
    FlaggedReals(a, b, maxErr);
  }

  /** A slice of non-zero values compared with itself within a non-negative band gives zero. */
  lemma {:induction false} EqualSlicesSelf(a: seq<real>, sz: Size, maxErr: real)
    requires |a| == 3 * sz.Cells() && maxErr >= 0.0 && forall p :: 0 <= p < |a| ==> a[p] != 0.0
    ensures CountRows(Reals(a, a), |a|, sz.nx, sz.nx, Rows(sz), maxErr) == 0
  {
    forall p | 0 <= p < |a|
      ensures !OutOfBand(a[p], a[p], maxErr)
    {
      assert a[p] / a[p] == 1.0;
    }
    FlaggedReals(a, a, maxErr);
    CountRowsZero(Reals(a, a), |a|, sz.nx, Rows(sz), maxErr);
  }

  /** For complex slices an element is flagged exactly when its real or its imaginary ratio is out of band. */
  lemma {:induction false} FlaggedComplexes(ar: seq<real>, ai: seq<real>, br: seq<real>, bi: seq<real>, maxErr: real)
    requires |ai| == |ar| && |br| == |ar| && |bi| == |ar|
    ensures (forall p :: 0 <= p < |ar| ==> !Flagged(Complexes(ar, br, ai, bi), |ar|, p, maxErr))
      <==> forall p :: 0 <= p < |ar| ==> !OutOfBand(ar[p], br[p], maxErr) && !OutOfBand(ai[p], bi[p], maxErr)
  {
    forall p | 0 <= p < |ar|
      ensures Flagged(Complexes(ar, br, ai, bi), |ar|, p, maxErr) == (OutOfBand(ar[p], br[p], maxErr) || OutOfBand(ai[p], bi[p], maxErr))
    {
    }
  }

  /** EqualCSlices: an element counts when its real or its imaginary ratio is out of band. */
  method EqualCSlices(ar: seq<real>, ai: seq<real>, br: seq<real>, bi: seq<real>, sz: Size, maxErr: real) returns (n: nat)
    requires |ar| == 3 * sz.Cells() && |ai| == |ar| && |br| == |ar| && |bi| == |ar|
    ensures n == CountRows(Complexes(ar, br, ai, bi), |ar|, sz.nx, sz.nx, Rows(sz), maxErr)
    ensures n <= |ar|
    ensures n == 0 <==> forall p :: 0 <= p < |ar| ==> !OutOfBand(ar[p], br[p], maxErr) && !OutOfBand(ai[p], bi[p], maxErr)
  {
    var o := Complexes(ar, br, ai, bi);
    var rows := Rows(sz);
    var r := Count(o, |ar|, sz.nx, rows, sz.nx, maxErr);
    n := if r.Ok? then r.value else 0;
    CountRowsZero(o, |ar|, sz.nx, rows, maxErr);
    FlaggedComplexes(ar, ai, br, bi, maxErr);
  }
}
