/**
 * The demagnetising self-interaction (mag/demag.go): every entry is the
 * demag kernel looked up at the periodic displacement between the two
 * cells, weighted by both saturation magnetisations and by -Mu0. The kernel
 * (one array per component pair, of size ks), Msat (one value per cell, in
 * z,y,x order) and Mu0 enter as parameters.
 */
module Demag {
  import opened Grid
  import opened Arith
  import opened Tensors

  /** Go's integer remainder: truncated toward zero, so it takes the sign of a. */
  function GoRem(a: int, b: int): int
    requires b > 0
  {
    if a >= 0 then a % b else -((-a) % b)
  }

  /** The source's mod(a, b) = (a + b) % b. */
  function Mod(a: int, b: int): (m: int)
    requires b > 0
    ensures -b <= a ==> 0 <= m < b && m == a % b
    ensures a + b < 0 ==> m <= 0
  {
    if -b <= a then
      ModShift(a, b);
      GoRem(a + b, b)
    else
      GoRem(a + b, b)
  }

  /** A demag kernel: size ks and the value K[c][c_] at displacement cell d. */
  datatype Kernel = Kernel(ks: Size, at: (nat, nat, Cell) -> real)

  /** The kernel covers the mesh, so every wrapped displacement is inside it. */
  predicate Covers(sz: Size, k: Kernel)
  {
    k.ks.nx >= sz.nx > 0 && k.ks.ny >= sz.ny > 0 && k.ks.nz > 0 && (sz.nz == 1 || k.ks.nz >= sz.nz)
  }

  /** The kernel cell looked up for the pair (x, y); z is 0 for a single layer. */
  function Displacement(sz: Size, k: Kernel, x: Cell, y: Cell): (d: Cell)
    requires Covers(sz, k) && InGrid(sz, x) && InGrid(sz, y)
    ensures InGrid(k.ks, d)
  {
    Cell(Mod(x.i - y.i, k.ks.nx), Mod(x.j - y.j, k.ks.ny), if sz.nz == 1 then 0 else Mod(x.k - y.k, k.ks.nz))
  }

  /** For a single layer, z does not couple to the in-plane components. */
  predicate Decoupled(sz: Size, c: nat, c_: nat)
  {
    sz.nz == 1 && ((c == 2 && c_ != 2) || (c_ == 2 && c != 2))
  }

  predicate Inputs(sz: Size, k: Kernel, ms: seq<real>)
  {
    Covers(sz, k) && |ms| == sz.Cells()
  }

  /** The value DemagTensor stores for entry e. */
  function DemagEntry(sz: Size, k: Kernel, ms: seq<real>, mu0: real, e: Entry): real
    requires Inputs(sz, k, ms) && InShape(BuilderShape(sz), e)
  {
    if Decoupled(sz, e.c, e.c_) then 0.0
    else
      Weighted(k.at(e.c, e.c_, EntryDisplacement(sz, k, e)), ms[e.r] * ms[e.r'], mu0)
  }

  /** The kernel cell looked up for entry e: the displacement between its two cells. */
  function EntryDisplacement(sz: Size, k: Kernel, e: Entry): (d: Cell)
    requires Covers(sz, k) && InShape(BuilderShape(sz), e)
    ensures InGrid(k.ks, d)
  {
    Displacement(sz, k, CellAt(ZYX, sz, e.r), CellAt(ZYX, sz, e.r'))
  }

  /** A kernel value kv weighted by the product w of the Msat of both cells and by -Mu0. */
  function Weighted(kv: real, w: real, mu0: real): real
  {
    kv * w * -mu0
  }

  /** The demag tensor builder: one block per component pair, zero or looked up. */
  method DemagTensor(sz: Size, k: Kernel, ms: seq<real>, mu0: real) returns (t: Tensor)
    requires Inputs(sz, k, ms)
    ensures fresh(t) && fresh(t.data) && t.Valid() && t.shape == BuilderShape(sz)
    ensures forall e :: InShape(t.shape, e) ==> t.Get(e) == DemagEntry(sz, k, ms, mu0, e)
  {
    var sh := BuilderShape(sz);
    t := Tensor.Zeros(sh);
    var c := 0;
    while c < 3
      invariant 0 <= c <= 3 && t.Valid() && t.shape == sh && fresh(t.data)
      invariant forall e :: InShape(sh, e) ==> t.Get(e) == if e.c < c then DemagEntry(sz, k, ms, mu0, e) else 0.0
    {
      var c_ := 0;
      while c_ < 3
        invariant 0 <= c_ <= 3 && t.Valid() && t.shape == sh
        invariant forall e :: InShape(sh, e) ==>
          t.Get(e) == if e.c < c || (e.c == c && e.c_ < c_) then DemagEntry(sz, k, ms, mu0, e) else 0.0
      {
        FillBlock(t, sz, k, ms, mu0, c, c_);
        c_ := c_ + 1;
      }
      c := c + 1;
    }
  }

  /** Writes every entry of the (c, c_) block: zero when decoupled, else the kernel lookup. */
  method FillBlock(t: Tensor, sz: Size, k: Kernel, ms: seq<real>, mu0: real, c: nat, c_: nat)
    requires Inputs(sz, k, ms) && t.Valid() && t.shape == BuilderShape(sz) && c < 3 && c_ < 3
    modifies t.data
    ensures forall e :: InShape(t.shape, e) ==>
      t.Get(e) == if e.c == c && e.c_ == c_ then DemagEntry(sz, k, ms, mu0, e) else old(t.Get(e))
  {
    var r := 0;
    while r < t.shape.N()
      invariant 0 <= r <= t.shape.N()
      invariant forall e :: InShape(t.shape, e) ==>
        t.Get(e) == if e.c == c && e.c_ == c_ && e.r < r then DemagEntry(sz, k, ms, mu0, e) else old(t.Get(e))
    {
      FillRow(t, sz, k, ms, mu0, c, c_, r);
      r := r + 1;
    }
  }

  /** Writes the entries (c, c_, r, r') for every r'. */
  method FillRow(t: Tensor, sz: Size, k: Kernel, ms: seq<real>, mu0: real, c: nat, c_: nat, r: nat)
    requires Inputs(sz, k, ms) && t.Valid() && t.shape == BuilderShape(sz) && c < 3 && c_ < 3 && r < sz.Cells()
    modifies t.data
    ensures forall e :: InShape(t.shape, e) ==>
      t.Get(e) == if e.c == c && e.c_ == c_ && e.r == r then DemagEntry(sz, k, ms, mu0, e) else old(t.Get(e))
  {
    var sh := t.shape;
    var n := sh.N();
    var x := CellAt(ZYX, sz, r);
    var r' := 0;
    while r' < n
      invariant 0 <= r' <= n
      invariant forall e :: InShape(sh, e) ==>
        t.Get(e) == if e.c == c && e.c_ == c_ && e.r == r && e.r' < r' then DemagEntry(sz, k, ms, mu0, e) else old(t.Get(e))
    {
      var y := CellAt(ZYX, sz, r');
      ghost var written := Entry(c, c_, r, r');
      var val := EntryValue(sz, k, ms, mu0, c, c_, x, y);
      assert val == DemagEntry(sz, k, ms, mu0, written);
      ghost var before := t.data[..];
      t.SetIdx(c, c_, x.i, x.j, x.k, y.i, y.j, y.k, val);
      assert IdxEntry(sh, c, c_, x, y) == written;
      forall e | InShape(sh, e) ensures t.Get(e) == if e == written then val else At(sh, before, e) {
        SetThenGet(sh, before, written, val, e);
      }
      r' := r' + 1;
    }
  }

  /** The value the loop body computes for components (c, c_) and cells (x, y). */
  method EntryValue(sz: Size, k: Kernel, ms: seq<real>, mu0: real, c: nat, c_: nat, x: Cell, y: Cell) returns (val: real)
    requires Inputs(sz, k, ms) && c < 3 && c_ < 3 && InGrid(sz, x) && InGrid(sz, y)
    ensures val == DemagEntry(sz, k, ms, mu0, Entry(c, c_, CellIndex(ZYX, sz, x), CellIndex(ZYX, sz, y)))
  {
    CellAtIndex(ZYX, sz, x);
    CellAtIndex(ZYX, sz, y);
    if Decoupled(sz, c, c_) {
      val := 0.0;
    } else {
      var kv, a, b := k.at(c, c_, Displacement(sz, k, x, y)), ms[CellIndex(ZYX, sz, x)], ms[CellIndex(ZYX, sz, y)];
      val := kv * a * b * -mu0;
      Regroup(kv, a, b, -mu0);
    }
  }

  /** An entry depends on the cell pair only through the wrapped displacement and the Msat product. */
  lemma {:induction false} DemagTranslation(sz: Size, k: Kernel, ms: seq<real>, mu0: real, e: Entry, f: Entry)
    requires Inputs(sz, k, ms) && InShape(BuilderShape(sz), e) && InShape(BuilderShape(sz), f)
    requires e.c == f.c && e.c_ == f.c_
    requires EntryDisplacement(sz, k, e) == EntryDisplacement(sz, k, f)
    requires ms[e.r] * ms[e.r'] == ms[f.r] * ms[f.r']
    ensures DemagEntry(sz, k, ms, mu0, e) == DemagEntry(sz, k, ms, mu0, f)
  {
    if !Decoupled(sz, e.c, e.c_) {
      var we := Weighted(k.at(e.c, e.c_, EntryDisplacement(sz, k, e)), ms[e.r] * ms[e.r'], mu0);
      var wf := Weighted(k.at(f.c, f.c_, EntryDisplacement(sz, k, f)), ms[f.r] * ms[f.r'], mu0);
      assert DemagEntry(sz, k, ms, mu0, e) == we by { CoupledEntry(sz, k, ms, mu0, e); }
      assert DemagEntry(sz, k, ms, mu0, f) == wf by { CoupledEntry(sz, k, ms, mu0, f); }
    }
  }

  /** A coupled entry is the kernel at its displacement, weighted by the Msat of both cells. */
  lemma {:induction false} CoupledEntry(sz: Size, k: Kernel, ms: seq<real>, mu0: real, e: Entry)
    requires Inputs(sz, k, ms) && InShape(BuilderShape(sz), e) && !Decoupled(sz, e.c, e.c_)
    ensures DemagEntry(sz, k, ms, mu0, e) == Weighted(k.at(e.c, e.c_, EntryDisplacement(sz, k, e)), ms[e.r] * ms[e.r'], mu0)
  {
  }

  /** A cell without magnetisation couples to nothing. */
  lemma {:induction false} DemagZeroMsat(sz: Size, k: Kernel, ms: seq<real>, mu0: real, e: Entry)
    requires Inputs(sz, k, ms) && InShape(BuilderShape(sz), e)
    requires ms[e.r] == 0.0 || ms[e.r'] == 0.0
    ensures DemagEntry(sz, k, ms, mu0, e) == 0.0
  {
  }

  /** The same displacement, wrapped into the kernel, for cells shifted together along x. */
  lemma {:induction false} DisplacementShift(sz: Size, k: Kernel, x: Cell, y: Cell)
    requires Covers(sz, k) && InGrid(sz, x) && InGrid(sz, y)
    requires x.i + 1 < sz.nx && y.i + 1 < sz.nx
    ensures Displacement(sz, k, Cell(x.i + 1, x.j, x.k), Cell(y.i + 1, y.j, y.k)) == Displacement(sz, k, x, y)
  {
    assert (x.i + 1) - (y.i + 1) == x.i - y.i;
  }
}
