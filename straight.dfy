/**
 * processStraight of solver/straight.go: of the first 2N eigenvalues of the
 * 3N x 3N dense problem, the zero-frequency ones are dropped; each kept
 * frequency is stored with a 3-component mode read from an eigenvector.
 */
module Straight {
  import opened Arith
  import opened Grid
  import opened Complexes
  import opened Wrappers

  /** The positions p < m whose value has a non-zero imaginary part, in increasing order. */
  function Kept(values: seq<Complex>, m: nat): (ks: seq<nat>)
    requires m <= |values|
    ensures |ks| <= m && forall a :: 0 <= a < |ks| ==> ks[a] < m
  {
    if m == 0 then []
    else Kept(values, m - 1) + (if values[m - 1].im != 0.0 then [m - 1] else [])
  }

  /** p is kept exactly when it is examined and its frequency is non-zero. */
  lemma {:induction false} KeptExact(values: seq<Complex>, m: nat, p: nat)
    requires m <= |values|
    ensures p in Kept(values, m) <==> p < m && values[p].im != 0.0
  {
    if m > 0 {
      KeptExact(values, m - 1, p);
    }
  }

  /** The kept positions are strictly increasing. */
  lemma {:induction false} KeptIncreasing(values: seq<Complex>, m: nat)
    requires m <= |values|
    ensures forall a, b :: 0 <= a < b < |Kept(values, m)| ==> Kept(values, m)[a] < Kept(values, m)[b]
  {
    if m > 0 {
      KeptIncreasing(values, m - 1);
    }
  }

  /** With no zero frequency among the first m values, output q comes from input q. */
  lemma {:induction false} KeptAllNonZero(values: seq<Complex>, m: nat)
    requires m <= |values| && forall p :: 0 <= p < m ==> values[p].im != 0.0
    ensures Kept(values, m) == seq(m, p => p)
  {
    if m > 0 {
      KeptAllNonZero(values, m - 1);
    }
  }

  /** The index c*N + k*Nx*Ny + j*Nx + i at which a mode entry is read. */
  function StraightIndex(sz: Size, c: nat, x: Cell): nat
  {
    c * sz.nx * sz.ny * sz.nz + x.k * sz.nx * sz.ny + x.j * sz.nx + x.i
  }

  /** That is component c of cell x in the z,y,x order of a CSlice, so the reshape is a bijection onto [0, 3N). */
  lemma {:induction false} StraightIndexLayout(sz: Size, c: nat, x: Cell)
    requires InGrid(sz, x)
    ensures StraightIndex(sz, c, x) == ComponentIndex(ZYX, sz, c, x)
  {
    CellIndexExpanded(ZYX, sz, x);
    assert c * sz.nx * sz.ny * sz.nz == c * sz.Cells();
  }

  /** Distinct (c, cell) pairs read distinct entries, all below 3N. */
  lemma {:induction false} StraightIndexInjective(sz: Size, c: nat, x: Cell, c': nat, y: Cell)
    requires c < 3 && c' < 3 && InGrid(sz, x) && InGrid(sz, y)
    ensures StraightIndex(sz, c, x) < 3 * sz.Cells()
    ensures StraightIndex(sz, c, x) == StraightIndex(sz, c', y) ==> c == c' && x == y
  {
    StraightIndexLayout(sz, c, x);
    StraightIndexLayout(sz, c', y);
    PackBound(c, CellIndex(ZYX, sz, x), 3, sz.Cells());
    if StraightIndex(sz, c, x) == StraightIndex(sz, c', y) {
      ComponentIndexInjective(ZYX, sz, 3, c, x, c', y);
    }
  }

  /** Every entry below 3N is read, for component idx / N of the cell with index idx % N. */
  lemma {:induction false} StraightIndexOnto(sz: Size, idx: nat)
    requires idx < 3 * sz.Cells()
    ensures idx / sz.Cells() < 3 && StraightIndex(sz, idx / sz.Cells(), CellAt(ZYX, sz, idx % sz.Cells())) == idx
  {
    ComponentIndexOnto(ZYX, sz, 3, idx);
    StraightIndexLayout(sz, idx / sz.Cells(), CellAt(ZYX, sz, idx % sz.Cells()));
  }

  /**
   * The c, k, j, i loop for one mode: entry [c][k][j][i] of the new
   * CSlice, stored at c*N + k*Nx*Ny + j*Nx + i, takes vec[StraightIndex].
   */
  method StraightMode(vec: seq<Complex>, sz: Size) returns (mode: seq<Complex>)
    requires |vec| >= 3 * sz.Cells()
    ensures mode == vec[..3 * sz.Cells()]
  {
    var n := sz.Cells();
    var w := vec[..3 * n];
    mode := [];
    var c := 0;
    while c < 3
      invariant 0 <= c <= 3 && c * n <= 3 * n && mode == w[..c * n]
    {
      var r := 0;
      while r < n
        invariant 0 <= r <= n && c * n + r <= 3 * n && mode == w[..c * n + r]
      {
        var x := CellAt(ZYX, sz, r);
        StraightIndexLayout(sz, c, x);
        PackBound(c, r, 3, n);
        mode := mode + [w[StraightIndex(sz, c, x)]];
        r := r + 1;
      }
      DistributeNat(c, 1, n);
      c := c + 1;
    }
  }

  /** The lengths of what Eig(3N) returns: at least 2N values and 2N eigenvectors of 3N entries. */
  predicate EigOutput(values: seq<Complex>, vectors: seq<seq<Complex>>, sz: Size)
  {
    2 * sz.Cells() <= |values| && 2 * sz.Cells() <= |vectors|
    && forall p :: 0 <= p < 2 * sz.Cells() ==> 3 * sz.Cells() <= |vectors[p]|
  }

  /**
   * processStraight as written: the q-th kept frequency imag(values[p]) is
   * stored with the mode read from vectors[q], not vectors[p]. Outputs from
   * q on keep the zero and nil of make.
   */
  method ProcessStraightAsWritten(values: seq<Complex>, vectors: seq<seq<Complex>>, sz: Size)
    returns (freqs: seq<real>, modes: seq<Option<seq<Complex>>>)
    requires EigOutput(values, vectors, sz)
    ensures |freqs| == 2 * sz.Cells() && |modes| == 2 * sz.Cells()
    ensures forall q :: 0 <= q < |Kept(values, 2 * sz.Cells())| ==>
      freqs[q] == values[Kept(values, 2 * sz.Cells())[q]].im && modes[q] == Some(vectors[q][..3 * sz.Cells()])
    ensures forall q :: |Kept(values, 2 * sz.Cells())| <= q < 2 * sz.Cells() ==> freqs[q] == 0.0 && modes[q].None?
  {
    var total := 2 * sz.Cells();
    freqs := seq(total, k => 0.0);
    modes := seq(total, k => None);
    var q := 0;
    var p := 0;
    while p < total
      invariant 0 <= p <= total && q == |Kept(values, p)| && q <= p
      invariant |freqs| == total && |modes| == total
      invariant forall t :: 0 <= t < q ==> freqs[t] == values[Kept(values, p)[t]].im
      invariant forall t :: 0 <= t < q ==> modes[t] == Some(vectors[t][..3 * sz.Cells()])
      invariant forall t :: q <= t < total ==> freqs[t] == 0.0 && modes[t].None?
    {
      var freq := values[p].im;
      if freq != 0.0 {
        freqs := freqs[q := freq];
        var mode := StraightMode(vectors[q], sz);
        modes := modes[q := Some(mode)];
        q := q + 1;
      }
      assert Kept(values, p + 1) == Kept(values, p) + (if values[p].im != 0.0 then [p] else []);
      p := p + 1;
    }
  }

  /**
   * The mispairing on one cell: for the values [0, i] and the eigenvectors
   * e_x, e_y, processStraight as written stores the frequency 1 of the second
   * eigenpair with the first eigenvector e_x; with the mode read from the
   * kept value's own eigenvector it is stored with e_y.
   */
  method StraightMispairs() returns (freq: real, asWritten: Option<seq<Complex>>, corrected: Option<seq<Complex>>)
    ensures freq == 1.0
    ensures asWritten == Some([OfReal(1.0), OfReal(0.0), OfReal(0.0)])
    ensures corrected == Some([OfReal(0.0), OfReal(1.0), OfReal(0.0)])
  {
    var sz := Size(1, 1, 1);
    var values := [Complex(0.0, 0.0), Complex(0.0, 1.0)];
    var ex, ey := [OfReal(1.0), OfReal(0.0), OfReal(0.0)], [OfReal(0.0), OfReal(1.0), OfReal(0.0)];
    var vectors := [ex, ey];
    assert Kept(values, 1) == [];
    assert Kept(values, 2) == [1];
    var freqs, modes := ProcessStraightAsWritten(values, vectors, sz);
    var freqs', modes' := ProcessStraight(values, vectors, sz);
    assert ex[..3] == ex && ey[..3] == ey;
    freq, asWritten, corrected := freqs[0], modes[0], modes'[0];
  }

  /**
   * processStraight with the mode read from the eigenvector of the kept
   * value: output q is the eigenpair of input Kept[q].
   */
  method ProcessStraight(values: seq<Complex>, vectors: seq<seq<Complex>>, sz: Size)
    returns (freqs: seq<real>, modes: seq<Option<seq<Complex>>>)
    requires EigOutput(values, vectors, sz)
    ensures |freqs| == 2 * sz.Cells() && |modes| == 2 * sz.Cells()
    ensures forall q :: 0 <= q < |Kept(values, 2 * sz.Cells())| ==>
      (var p := Kept(values, 2 * sz.Cells())[q];
       p < 2 * sz.Cells() && freqs[q] == values[p].im && freqs[q] != 0.0 && modes[q] == Some(vectors[p][..3 * sz.Cells()]))
    ensures forall q :: |Kept(values, 2 * sz.Cells())| <= q < 2 * sz.Cells() ==> freqs[q] == 0.0 && modes[q].None?
  {
    var total, len := 2 * sz.Cells(), 3 * sz.Cells();
    freqs := seq(total, k => 0.0);
    modes := seq(total, k => None);
    var q := 0;
    var p := 0;
    ghost var kept: seq<nat> := [];
    while p < total
      invariant 0 <= p <= total && kept == Kept(values, p) && q == |kept| && q <= p
      invariant |freqs| == total && Stored(values, vectors, kept, len, freqs, modes)
    {
      var freq := values[p].im;
      assert Kept(values, p + 1) == kept + (if freq != 0.0 then [p] else []);
      if freq != 0.0 {
        StoredStep(values, vectors, kept, len, freqs, modes, p);
        freqs := freqs[q := freq];
        var mode := StraightMode(vectors[p], sz);
        modes := modes[q := Some(mode)];
        q := q + 1;
        kept := kept + [p];
      }
      p := p + 1;
    }
  }

  /**
   * Outputs below |kept| hold the eigenpairs of the kept inputs, in order,
   * and the rest still hold the zero and nil of make.
   */
  ghost predicate Stored(values: seq<Complex>, vectors: seq<seq<Complex>>, kept: seq<nat>, len: nat,
                         freqs: seq<real>, modes: seq<Option<seq<Complex>>>)
  {
    |kept| <= |freqs| && |freqs| == |modes|
    && (forall t :: 0 <= t < |kept| ==>
          kept[t] < |values| && kept[t] < |vectors| && len <= |vectors[kept[t]]|
          && freqs[t] == values[kept[t]].im && freqs[t] != 0.0 && modes[t] == Some(vectors[kept[t]][..len]))
    && forall t :: |kept| <= t < |freqs| ==> freqs[t] == 0.0 && modes[t].None?
  }

  /** Keeping input p stores its eigenpair at the next output. */
  lemma {:induction false} StoredStep(values: seq<Complex>, vectors: seq<seq<Complex>>, kept: seq<nat>, len: nat,
                                      freqs: seq<real>, modes: seq<Option<seq<Complex>>>, p: nat)
    requires Stored(values, vectors, kept, len, freqs, modes) && |kept| < |freqs|
    requires p < |values| && p < |vectors| && len <= |vectors[p]| && values[p].im != 0.0
    ensures Stored(values, vectors, kept + [p], len, freqs[|kept| := values[p].im], modes[|kept| := Some(vectors[p][..len])])
  {
  }
}
