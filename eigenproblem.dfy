/**
 * EigenProblemTensor of mag/systemtensors.go: the dynamic operator applied
 * to the linear Hamiltonian, the real matrix whose eigenvalues are the
 * eigenfrequencies of the system.
 */
module EigenProblem {
  import opened Grid
  import opened Tensors
  import opened SystemTensors
  import opened Dynamics

  /** The contents of the linear Hamiltonian tensor, offset by offset. */
  function HamiltonianTensor(sh: Shape, s: seq<real>, m: seq<real>, b: seq<real>, ms: seq<real>): (h: seq<real>)
    requires Fields(sh, s, m, b, ms)
    ensures Fits(sh, h)
  {
    seq(sh.Len(), p requires 0 <= p < sh.Len() => HamiltonianEntry(sh, s, m, b, ms, EntryAt(sh, p)))
  }

  lemma {:induction false} HamiltonianTensorAt(sh: Shape, s: seq<real>, m: seq<real>, b: seq<real>, ms: seq<real>, e: Entry)
    requires Fields(sh, s, m, b, ms) && InShape(sh, e)
    ensures At(sh, HamiltonianTensor(sh, s, m, b, ms), e) == HamiltonianEntry(sh, s, m, b, ms, e)
  {
    EntryAtOffset(sh, e);
  }

  /** Entry e of the eigenproblem tensor: the dynamic operator entry of the Hamiltonian. */
  function EigenEntry(g: Engine, m: seq<real>, b: seq<real>, gamma: real, e: Entry): real
    requires Inputs(g) && |m| == 3 * g.sz.Cells() && |b| == 3 * g.sz.Cells()
    requires forall r :: 0 <= r < |g.ms| ==> g.ms[r] != 0.0
    requires InShape(BuilderShape(g.sz), e)
  {
    var sh := BuilderShape(g.sz);
    DynEntry(sh, HamiltonianTensor(sh, SelfTensor(g), m, b, g.ms), m, g.ms, gamma, e)
  }

  /**
   * EigenProblemTensor: DynamicOperate(LinearHamiltonianTensor()). Msat must
   * be non-zero in every cell, since DynamicOperate divides by it.
   */
  method EigenProblemTensor(g: Engine, m: seq<real>, b: seq<real>, gamma: real) returns (ept: Tensor)
    requires Inputs(g) && |m| == 3 * g.sz.Cells() && |b| == 3 * g.sz.Cells()
    requires forall r :: 0 <= r < |g.ms| ==> g.ms[r] != 0.0
    ensures fresh(ept) && ept.Valid() && ept.shape == BuilderShape(g.sz)
    ensures forall e :: InShape(ept.shape, e) ==> ept.Get(e) == EigenEntry(g, m, b, gamma, e)
  {
    var lht := LinearHamiltonianTensor(g, m, b);
    var sh := lht.shape;
    ghost var h := HamiltonianTensor(sh, SelfTensor(g), m, b, g.ms);
    forall p | 0 <= p < sh.Len() ensures lht.data[p] == h[p] {
      assert lht.data[p] == lht.Get(EntryAt(sh, p));
    }
    assert lht.data[..] == h;
    ept := DynamicOperate(lht, m, g.ms, gamma);
  }
}
