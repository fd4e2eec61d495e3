/**
 * The block-wise congruence transform shared by RotationToZ.RotateTensor
 * (mag/projection.go, cells in z,y,x order) and RotatedToZ.rotateToZ
 * (solver/rotatedtoz.go, cells in x,y,z order).
 *
 * Both walk the outer cell a and the inner cell b in storage order; at step
 * (a, b) block (a, b) of the working copy is replaced by R_a times it, and
 * then block (b, a) by itself times R_a^T. Every block (x, y) is therefore
 * left-multiplied once (at step (x, y)) and right-multiplied once (at step
 * (y, x)), in whichever order those steps come, and ends as
 * R_x T(x, y) R_y^T. The rotations rs hold one matrix per cell, indexed
 * like the tensor's cells.
 */
module Congruence {
  import opened Grid
  import opened Sums
  import opened Tensors
  import opened Matrices

  /** The 3x3 block coupling cell r to cell r'. */
  function Block(sh: Shape, s: seq<real>, r: nat, r': nat): (b: seq<seq<real>>)
    requires sh.nComp == 3 && Fits(sh, s) && r < sh.N() && r' < sh.N()
    ensures IsMat3(b)
  {
    seq(3, p requires 0 <= p < 3 => seq(3, q requires 0 <= q < 3 => At(sh, s, Entry(p, q, r, r'))))
  }

  /** R_r T(r, r') R_r'^T. */
  function RotatedBlock(sh: Shape, s: seq<real>, rs: seq<seq<seq<real>>>, r: nat, r': nat): (b: seq<seq<real>>)
    requires sh.nComp == 3 && Fits(sh, s) && Mats(rs, sh.N()) && r < sh.N() && r' < sh.N()
    ensures IsMat3(b)
  {
    RightMulT(LeftMul(rs[r], Block(sh, s, r, r')), rs[r'])
  }

  /** Entry e of the transformed tensor. */
  function RotatedEntry(sh: Shape, s: seq<real>, rs: seq<seq<seq<real>>>, e: Entry): real
    requires sh.nComp == 3 && Fits(sh, s) && Mats(rs, sh.N()) && InShape(sh, e)
  {
    RotatedBlock(sh, s, rs, e.r, e.r')[e.c][e.c_]
  }

  /** Entry (p, q) of the transformed block is the double sum over the original block. */
  lemma {:induction false} RotatedEntrySum(sh: Shape, s: seq<real>, rs: seq<seq<seq<real>>>, e: Entry)
    requires sh.nComp == 3 && Fits(sh, s) && Mats(rs, sh.N()) && InShape(sh, e)
    ensures RotatedEntry(sh, s, rs, e)
      == Dot(rs[e.r'][e.c_], seq(3, b requires 0 <= b < 3 => Dot(rs[e.r][e.c], ColumnOf(Block(sh, s, e.r, e.r'), b), 3)), 3)
  {
    var l := LeftMul(rs[e.r], Block(sh, s, e.r, e.r'));
    DotCongruent(rs[e.r'][e.c_], l[e.c], rs[e.r'][e.c_],
      seq(3, b requires 0 <= b < 3 => Dot(rs[e.r][e.c], ColumnOf(Block(sh, s, e.r, e.r'), b), 3)), 3);
  }

  /** Step (x, y) comes before step (a, b) in storage order. */
  predicate Before(x: nat, y: nat, a: nat, b: nat)
  {
    x < a || (x == a && y < b)
  }

  /** Block (x, y) after its left multiplication, its right multiplication, both or neither. */
  function Stage(sh: Shape, s: seq<real>, rs: seq<seq<seq<real>>>, x: nat, y: nat, left: bool, right: bool): (b: seq<seq<real>>)
    requires sh.nComp == 3 && Fits(sh, s) && Mats(rs, sh.N()) && x < sh.N() && y < sh.N()
    ensures IsMat3(b)
  {
    var t := Block(sh, s, x, y);
    if left && right then RightMulT(LeftMul(rs[x], t), rs[y])
    else if left then LeftMul(rs[x], t)
    else if right then RightMulT(t, rs[y])
    else t
  }

  /**
   * The working copy: block (x, y) has had its left multiplication iff step
   * (x, y) is before (la, lb), and its right multiplication iff step (y, x)
   * is before (ra, rb).
   */
  ghost predicate Staged(sh: Shape, s: seq<real>, rs: seq<seq<seq<real>>>, la: nat, lb: nat, ra: nat, rb: nat, cur: seq<real>)
    requires sh.nComp == 3 && Fits(sh, s) && Mats(rs, sh.N())
  {
    Fits(sh, cur)
    && forall x: nat, y: nat :: x < sh.N() && y < sh.N() ==>
      Block(sh, cur, x, y) == Stage(sh, s, rs, x, y, Before(x, y, la, lb), Before(y, x, ra, rb))
  }

  /** Two contents agree on every block except possibly block (a, b). */
  ghost predicate OtherBlocksAgree(sh: Shape, u: seq<real>, w: seq<real>, a: nat, b: nat)
    requires sh.nComp == 3 && Fits(sh, u) && Fits(sh, w)
  {
    forall x: nat, y: nat :: x < sh.N() && y < sh.N() && (x, y) != (a, b) ==> Block(sh, u, x, y) == Block(sh, w, x, y)
  }

  /** The left half of step (a, b): block (a, b) becomes R_a times itself. */
  lemma {:induction false} LeftHalf(sh: Shape, s: seq<real>, rs: seq<seq<seq<real>>>, a: nat, b: nat, cur: seq<real>, next: seq<real>)
    requires sh.nComp == 3 && Fits(sh, s) && Mats(rs, sh.N()) && a < sh.N() && b < sh.N()
    requires Staged(sh, s, rs, a, b, a, b, cur) && Fits(sh, next)
    requires Block(sh, next, a, b) == LeftMul(rs[a], Block(sh, cur, a, b))
    requires OtherBlocksAgree(sh, cur, next, a, b)
    ensures Staged(sh, s, rs, a, b + 1, a, b, next)
  {
    if Before(b, a, a, b) {
      Associative(rs[a], Block(sh, s, a, b), rs[b]);
    }
  }

  /** The right half of step (a, b): block (b, a) becomes itself times R_a^T. */
  lemma {:induction false} RightHalf(sh: Shape, s: seq<real>, rs: seq<seq<seq<real>>>, a: nat, b: nat, cur: seq<real>, next: seq<real>)
    requires sh.nComp == 3 && Fits(sh, s) && Mats(rs, sh.N()) && a < sh.N() && b < sh.N()
    requires Staged(sh, s, rs, a, b + 1, a, b, cur) && Fits(sh, next)
    requires Block(sh, next, b, a) == RightMulT(Block(sh, cur, b, a), rs[a])
    requires OtherBlocksAgree(sh, cur, next, b, a)
    ensures Staged(sh, s, rs, a, b + 1, a, b + 1, next)
  {
  }

  /** Before any step nothing has been multiplied; the copy equals the original. */
  lemma {:induction false} StagedAtStart(sh: Shape, s: seq<real>, rs: seq<seq<seq<real>>>)
    requires sh.nComp == 3 && Fits(sh, s) && Mats(rs, sh.N())
    ensures Staged(sh, s, rs, 0, 0, 0, 0, s)
  {
  }

  /** Finishing the inner loop at b == N is the same state as starting the next outer cell. */
  lemma {:induction false} StagedNextRow(sh: Shape, s: seq<real>, rs: seq<seq<seq<real>>>, a: nat, cur: seq<real>)
    requires sh.nComp == 3 && Fits(sh, s) && Mats(rs, sh.N())
    requires Staged(sh, s, rs, a, sh.N(), a, sh.N(), cur)
    ensures Staged(sh, s, rs, a + 1, 0, a + 1, 0, cur)
  {
    forall x: nat, y: nat | x < sh.N() && y < sh.N()
      ensures Before(x, y, a, sh.N()) == Before(x, y, a + 1, 0) && Before(y, x, a, sh.N()) == Before(y, x, a + 1, 0)
    {
    }
  }

  /** After every step, every block is R_x T(x, y) R_y^T. */
  lemma {:induction false} StagedAtEnd(sh: Shape, s: seq<real>, rs: seq<seq<seq<real>>>, cur: seq<real>, e: Entry)
    requires sh.nComp == 3 && Fits(sh, s) && Mats(rs, sh.N()) && InShape(sh, e)
    requires Staged(sh, s, rs, sh.N(), 0, sh.N(), 0, cur)
    ensures At(sh, cur, e) == RotatedEntry(sh, s, rs, e)
  {
    assert Block(sh, cur, e.r, e.r')[e.c][e.c_] == At(sh, cur, e);
  }

  /** Two contents whose entries agree outside block (a, b) agree on every other block. */
  lemma {:induction false} BlocksFromEntries(sh: Shape, u: seq<real>, w: seq<real>, a: nat, b: nat)
    requires sh.nComp == 3 && Fits(sh, u) && Fits(sh, w)
    requires forall f :: InShape(sh, f) && !(f.r == a && f.r' == b) ==> At(sh, u, f) == At(sh, w, f)
    ensures OtherBlocksAgree(sh, u, w, a, b)
  {
    forall x: nat, y: nat | x < sh.N() && y < sh.N() && (x, y) != (a, b) ensures Block(sh, u, x, y) == Block(sh, w, x, y) {
      BlockOfEntries(sh, w, x, y, Block(sh, u, x, y));
    }
  }

  /** A block whose nine entries are those of temp is temp. */
  lemma {:induction false} BlockOfEntries(sh: Shape, u: seq<real>, a: nat, b: nat, temp: seq<seq<real>>)
    requires sh.nComp == 3 && Fits(sh, u) && a < sh.N() && b < sh.N() && IsMat3(temp)
    requires forall p, q :: 0 <= p < 3 && 0 <= q < 3 ==> At(sh, u, Entry(p, q, a, b)) == temp[p][q]
    ensures Block(sh, u, a, b) == temp
  {
    var blk := Block(sh, u, a, b);
    assert forall p :: 0 <= p < 3 ==> blk[p] == temp[p];
  }

  // ---------------------------------------------------------------------
  // The loops.

  /** Column q of block (x, y) of the contents s, indexed by cells. */
  function CellColumn(sh: Shape, s: seq<real>, x: Cell, y: Cell, q: nat): (col: seq<real>)
    requires sh.nComp == 3 && Fits(sh, s) && InGrid(sh.size, x) && InGrid(sh.size, y) && q < 3
    ensures |col| == 3 && forall r :: 0 <= r < 3 ==> col[r] == At(sh, s, IdxEntry(sh, r, q, x, y))
  {
    ColumnOf(Block(sh, s, CellIndex(sh.order, sh.size, x), CellIndex(sh.order, sh.size, y)), q)
  }

  /** Row p of block (x, y) of the contents s, indexed by cells. */
  function CellRow(sh: Shape, s: seq<real>, x: Cell, y: Cell, p: nat): (row: seq<real>)
    requires sh.nComp == 3 && Fits(sh, s) && InGrid(sh.size, x) && InGrid(sh.size, y) && p < 3
    ensures |row| == 3 && forall r :: 0 <= r < 3 ==> row[r] == At(sh, s, IdxEntry(sh, p, r, x, y))
  {
    Block(sh, s, CellIndex(sh.order, sh.size, x), CellIndex(sh.order, sh.size, y))[p]
  }

  /** What LeftEntry and RightEntry read: a 3-component tensor, a 3x3 matrix and two cells of its grid. */
  ghost predicate BlockArgs(t: Tensor, rot: seq<seq<real>>, x: Cell, y: Cell)
    reads t, t.data
  {
    t.Valid() && t.shape.nComp == 3 && IsMat3(rot) && InGrid(t.shape.size, x) && InGrid(t.shape.size, y)
  }

  /** temp[p][q] = R[p][0]*T(0,q) + R[p][1]*T(1,q) + R[p][2]*T(2,q), read from block (x, y); the r loop is the running sum of DotSum. */
  method LeftEntry(t: Tensor, rot: seq<seq<real>>, x: Cell, y: Cell, p: nat, q: nat) returns (acc: real)
    requires BlockArgs(t, rot, x, y) && p < 3 && q < 3
    ensures acc == Dot(rot[p], CellColumn(t.shape, t.data[..], x, y, q), 3)
  {
    var col := [t.GetIdx(0, q, x.i, x.j, x.k, y.i, y.j, y.k), t.GetIdx(1, q, x.i, x.j, x.k, y.i, y.j, y.k),
      t.GetIdx(2, q, x.i, x.j, x.k, y.i, y.j, y.k)];
    assert col == CellColumn(t.shape, t.data[..], x, y, q);
    acc := DotSum(rot[p], col);
  }

  /** temp[p][q] = R[q][0]*T(p,0) + R[q][1]*T(p,1) + R[q][2]*T(p,2), read from block (x, y); the r loop is the running sum of DotSum. */
  method RightEntry(t: Tensor, rot: seq<seq<real>>, x: Cell, y: Cell, p: nat, q: nat) returns (acc: real)
    requires BlockArgs(t, rot, x, y) && p < 3 && q < 3
    ensures acc == Dot(rot[q], CellRow(t.shape, t.data[..], x, y, p), 3)
  {
    var row := [t.GetIdx(p, 0, x.i, x.j, x.k, y.i, y.j, y.k), t.GetIdx(p, 1, x.i, x.j, x.k, y.i, y.j, y.k),
      t.GetIdx(p, 2, x.i, x.j, x.k, y.i, y.j, y.k)];
    assert row == CellRow(t.shape, t.data[..], x, y, p);
    acc := DotSum(rot[q], row);
  }

  /** The 3x3 temp of the left multiplication: R times block (x, y). */
  method LeftProduct(t: Tensor, rot: seq<seq<real>>, x: Cell, y: Cell) returns (temp: seq<seq<real>>)
    requires t.Valid() && t.shape.nComp == 3 && IsMat3(rot)
    requires InGrid(t.shape.size, x) && InGrid(t.shape.size, y)
    ensures temp == LeftMul(rot, Block(t.shape, t.data[..], CellIndex(t.shape.order, t.shape.size, x),
      CellIndex(t.shape.order, t.shape.size, y)))
  {
    ghost var want := LeftMul(rot, Block(t.shape, t.data[..], CellIndex(t.shape.order, t.shape.size, x),
      CellIndex(t.shape.order, t.shape.size, y)));
    temp := [];
    var p := 0;
    while p < 3
      invariant 0 <= p <= 3 && |temp| == p
      invariant forall p' :: 0 <= p' < p ==> temp[p'] == want[p']
    {
      var row := [];
      var q := 0;
      while q < 3
        invariant 0 <= q <= 3 && |row| == q
        invariant forall q' :: 0 <= q' < q ==> row[q'] == want[p][q']
      {
        var acc := LeftEntry(t, rot, x, y, p, q);
        row := row + [acc];
        q := q + 1;
      }
      temp := temp + [row];
      p := p + 1;
    }
  }

  /** The 3x3 temp of the right multiplication: block (x, y) times R^T. */
  method RightProduct(t: Tensor, rot: seq<seq<real>>, x: Cell, y: Cell) returns (temp: seq<seq<real>>)
    requires t.Valid() && t.shape.nComp == 3 && IsMat3(rot)
    requires InGrid(t.shape.size, x) && InGrid(t.shape.size, y)
    ensures temp == RightMulT(Block(t.shape, t.data[..], CellIndex(t.shape.order, t.shape.size, x),
      CellIndex(t.shape.order, t.shape.size, y)), rot)
  {
    ghost var want := RightMulT(Block(t.shape, t.data[..], CellIndex(t.shape.order, t.shape.size, x),
      CellIndex(t.shape.order, t.shape.size, y)), rot);
    temp := [];
    var p := 0;
    while p < 3
      invariant 0 <= p <= 3 && |temp| == p
      invariant forall p' :: 0 <= p' < p ==> temp[p'] == want[p']
    {
      var row := [];
      var q := 0;
      while q < 3
        invariant 0 <= q <= 3 && |row| == q
        invariant forall q' :: 0 <= q' < q ==> row[q'] == want[p][q']
      {
        var acc := RightEntry(t, rot, x, y, p, q);
        row := row + [acc];
        q := q + 1;
      }
      temp := temp + [row];
      p := p + 1;
    }
  }

  /** The nine SetIdx calls that store temp as block (x, y). */
  method WriteBlock(t: Tensor, temp: seq<seq<real>>, x: Cell, y: Cell)
    requires t.Valid() && t.shape.nComp == 3 && IsMat3(temp)
    requires InGrid(t.shape.size, x) && InGrid(t.shape.size, y)
    modifies t.data
    ensures forall f :: InShape(t.shape, f) ==>
      t.Get(f) == if f.r == CellIndex(t.shape.order, t.shape.size, x) && f.r' == CellIndex(t.shape.order, t.shape.size, y)
        then temp[f.c][f.c_] else old(t.Get(f))
  {
    var p := 0;
    while p < 3
      invariant 0 <= p <= 3
      invariant forall f :: InShape(t.shape, f) ==>
        t.Get(f) == if f.r == CellIndex(t.shape.order, t.shape.size, x) && f.r' == CellIndex(t.shape.order, t.shape.size, y) && f.c < p
          then temp[f.c][f.c_] else old(t.Get(f))
    {
      var q := 0;
      while q < 3
        invariant 0 <= q <= 3
        invariant forall f :: InShape(t.shape, f) ==>
          t.Get(f) == if f.r == CellIndex(t.shape.order, t.shape.size, x) && f.r' == CellIndex(t.shape.order, t.shape.size, y)
            && (f.c < p || (f.c == p && f.c_ < q)) then temp[f.c][f.c_] else old(t.Get(f))
      {
        t.SetIdx(p, q, x.i, x.j, x.k, y.i, y.j, y.k, temp[p][q]);
        q := q + 1;
      }
      p := p + 1;
    }
  }

  /** Stores temp as block (x, y), stated on blocks. */
  method StoreBlock(t: Tensor, temp: seq<seq<real>>, x: Cell, y: Cell)
    requires t.Valid() && t.shape.nComp == 3 && IsMat3(temp)
    requires InGrid(t.shape.size, x) && InGrid(t.shape.size, y)
    modifies t.data
    ensures Block(t.shape, t.data[..], CellIndex(t.shape.order, t.shape.size, x), CellIndex(t.shape.order, t.shape.size, y)) == temp
    ensures OtherBlocksAgree(t.shape, old(t.data[..]), t.data[..],
      CellIndex(t.shape.order, t.shape.size, x), CellIndex(t.shape.order, t.shape.size, y))
  {
    var sh := t.shape;
    ghost var a, b := CellIndex(sh.order, sh.size, x), CellIndex(sh.order, sh.size, y);
    ghost var before := t.data[..];
    WriteBlock(t, temp, x, y);
    ghost var after := t.data[..];
    forall p, q | 0 <= p < 3 && 0 <= q < 3 ensures At(sh, after, Entry(p, q, a, b)) == temp[p][q] {
      assert t.Get(Entry(p, q, a, b)) == temp[p][q];
    }
    BlockOfEntries(sh, after, a, b, temp);
    forall f | InShape(sh, f) && !(f.r == a && f.r' == b) ensures At(sh, before, f) == At(sh, after, f) {
      assert t.Get(f) == old(t.Get(f));
    }
    BlocksFromEntries(sh, before, after, a, b);
  }

  /** Step (a, b) of the loops, with R = R_a. */
  method Step(t: Tensor, rs: seq<seq<seq<real>>>, a: nat, b: nat, ghost s: seq<real>)
    requires t.Valid() && t.shape.nComp == 3 && Fits(t.shape, s) && Mats(rs, t.shape.N()) && a < t.shape.N() && b < t.shape.N()
    requires Staged(t.shape, s, rs, a, b, a, b, t.data[..])
    modifies t.data
    ensures Staged(t.shape, s, rs, a, b + 1, a, b + 1, t.data[..])
  {
    var sh := t.shape;
    var x, y := CellAt(sh.order, sh.size, a), CellAt(sh.order, sh.size, b);
    var rot := rs[a];
    ghost var s0 := t.data[..];
    var temp := LeftProduct(t, rot, x, y);
    StoreBlock(t, temp, x, y);
    LeftHalf(sh, s, rs, a, b, s0, t.data[..]);
    ghost var s1 := t.data[..];
    temp := RightProduct(t, rot, y, x);
    StoreBlock(t, temp, y, x);
    RightHalf(sh, s, rs, a, b, s1, t.data[..]);
  }

  /**
   * The loops of RotateTensor and rotateToZ on a copy of t: every block
   * (r, r') of the result is R_r t(r, r') R_r'^T, and t is unchanged.
   */
  method RotateBlocks(t: Tensor, rs: seq<seq<seq<real>>>) returns (res: Tensor)
    requires t.Valid() && t.shape.nComp == 3 && Mats(rs, t.shape.N())
    ensures fresh(res) && fresh(res.data) && res.Valid() && res.shape == t.shape
    ensures forall e :: InShape(t.shape, e) ==> res.Get(e) == RotatedEntry(t.shape, t.data[..], rs, e)
  {
    var sh := t.shape;
    res := t.Copy();
    ghost var s := t.data[..];
    StagedAtStart(sh, s, rs);
    var a := 0;
    while a < sh.N()
      invariant 0 <= a <= sh.N()
      invariant fresh(res.data) && res.Valid() && res.shape == sh && t.data[..] == s
      invariant Staged(sh, s, rs, a, 0, a, 0, res.data[..])
    {
      var b := 0;
      while b < sh.N()
        invariant 0 <= b <= sh.N()
        invariant fresh(res.data) && res.Valid() && res.shape == sh && t.data[..] == s
        invariant Staged(sh, s, rs, a, b, a, b, res.data[..])
      {
        Step(res, rs, a, b, s);
        b := b + 1;
      }
      StagedNextRow(sh, s, rs, a, res.data[..]);
      a := a + 1;
    }
    forall e | InShape(sh, e) ensures res.Get(e) == RotatedEntry(sh, s, rs, e) {
      StagedAtEnd(sh, s, rs, res.data[..], e);
    }
  }
}
