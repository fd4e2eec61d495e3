/**
 * Energy and self-interaction field of a magnetisation state for a given
 * self-interaction tensor (mag/field.go). The saturation magnetisation Msat
 * enters as one value per cell in z,y,x order, the cell size as a parameter.
 */
module Field {
  import opened Grid
  import opened Wrappers
  import opened Slices
  import opened ComplexSlices
  import opened Tensors

  /** 1/2 * sum over (c, c_, r, r') of T*m_c(r)*m_c_(r'), times the cell volume Dx*Dy*Dz. */
  function FieldEnergy(sh: Shape, s: seq<real>, m: seq<real>, d: CellSize): real
    requires Fits(sh, s) && |m| == sh.Dim()
  {
    HalfVolume(QuadForm(sh, s, m), d)
  }

  /** Half of q times the cell volume. */
  function HalfVolume(q: real, d: CellSize): real
  {
    0.5 * q * d.dx * d.dy * d.dz
  }

  /** The zero tensor stores no energy. */
  lemma {:induction false} EnergyOfZeros(sh: Shape, m: seq<real>, d: CellSize)
    requires |m| == sh.Dim()
    ensures FieldEnergy(sh, seq(sh.Len(), p => 0.0), m, d) == 0.0
  {
    QuadFormOfZeros(sh, m);
  }

  /** Reversing every moment leaves the energy unchanged. */
  lemma {:induction false} EnergyNegated(sh: Shape, s: seq<real>, m: seq<real>, d: CellSize)
    requires Fits(sh, s) && |m| == sh.Dim()
    ensures FieldEnergy(sh, s, Negated(m), d) == FieldEnergy(sh, s, m, d)
  {
    QuadFormNegated(sh, s, m);
  }

  /** The energy of a sum of two tensors is the sum of their energies. */
  lemma {:induction false} EnergyOfSum(sh: Shape, s: seq<real>, u: seq<real>, m: seq<real>, d: CellSize)
    requires Fits(sh, s) && Fits(sh, u) && |m| == sh.Dim()
    ensures FieldEnergy(sh, Sum(sh, [s, u]), m, d) == FieldEnergy(sh, s, m, d) + FieldEnergy(sh, u, m, d)
  {
    var q := QuadForm(sh, Sum(sh, [s, u]), m);
    calc {
      q;
      { QuadFormOfSum(sh, [s, u], m); }
      SumOfForms(sh, [s, u], m);
      { assert [s, u][..1] == [s]; }
      SumOfForms(sh, [s], m) + QuadForm(sh, u, m);
      { assert [s][..0] == []; }
      SumOfForms(sh, [], m) + QuadForm(sh, s, m) + QuadForm(sh, u, m);
    }
    ScaleSum(QuadForm(sh, s, m), QuadForm(sh, u, m), d);
  }

  lemma {:induction false} ScaleSum(a: real, b: real, d: CellSize)
    ensures HalfVolume(a + b, d) == HalfVolume(a, d) + HalfVolume(b, d)
  {
  }

  /** A slice laid out as the rows of a z,y,x-ordered 3-component tensor. */
  ghost predicate Compatible(t: Tensor, v: Slice)
    reads t, v
  {
    t.Valid() && t.shape.order == ZYX && t.shape.nComp == 3 && v.Valid() && t.Matches(v)
  }

  /** Energy: a device slice is read through a host copy; the tensor is summed in storage order. */
  method Energy(t: Tensor, mSl: Slice, d: CellSize) returns (e: real)
    requires Compatible(t, mSl)
    ensures e == FieldEnergy(t.shape, t.data[..], mSl.data[..], d)
  {
    var h := mSl;
    if !mSl.onHost {
      h := mSl.HostCopy();
    }
    var sum := t.QuadraticSum(h.data[..]);
    e := HalfVolume(sum, d);
  }

  /** The field of each stored value w of T*m: -w/Ms of its cell, or exactly 0 where Ms is 0. */
  function SelfField(sh: Shape, w: seq<real>, ms: seq<real>): (h: seq<real>)
    requires |w| == sh.Dim() && |ms| == sh.N() && sh.Ok()
    ensures |h| == |w|
  {
    seq(|w|, p requires 0 <= p < |w| => var r := p % sh.N(); if ms[r] == 0.0 then 0.0 else -w[p] / ms[r])
  }

  /** Component c of the field at cell r. */
  lemma {:induction false} SelfFieldAt(sh: Shape, w: seq<real>, ms: seq<real>, c: nat, r: nat)
    requires |w| == sh.Dim() && |ms| == sh.N() && sh.Ok() && c < sh.nComp && r < sh.N()
    ensures var p := RowIndex(sh, c, r);
      SelfField(sh, w, ms)[p] == if ms[r] == 0.0 then 0.0 else -w[p] / ms[r]
  {
    Arith.PackUnpack(c, r, sh.N());
  }

  /** The field rule is linear in T*m, so the field is linear in m. */
  lemma {:induction false} SelfFieldLinear(sh: Shape, s: seq<real>, ms: seq<real>, a: real, u: seq<real>, b: real, w: seq<real>)
    requires Fits(sh, s) && |u| == sh.Dim() && |w| == sh.Dim() && |ms| == sh.N() && sh.Ok()
    ensures SelfField(sh, Product(sh, s, Combine(a, u, b, w)), ms)
      == Combine(a, SelfField(sh, Product(sh, s, u), ms), b, SelfField(sh, Product(sh, s, w), ms))
  {
    ProductLinear(sh, s, a, u, b, w);
    var pu, pw := Product(sh, s, u), Product(sh, s, w);
    var lhs := SelfField(sh, Product(sh, s, Combine(a, u, b, w)), ms);
    var rhs := Combine(a, SelfField(sh, pu, ms), b, SelfField(sh, pw, ms));
    forall p | 0 <= p < |lhs| ensures lhs[p] == rhs[p] {
      var m := ms[p % sh.N()];
      if m != 0.0 {
        DivideLinear(a, pu[p], b, pw[p], m);
      }
    }
  }

  lemma {:induction false} DivideLinear(a: real, x: real, b: real, y: real, m: real)
    requires m != 0.0
    ensures -(a * x + b * y) / m == a * (-x / m) + b * (-y / m)
  {
  }

  /** The rewrite of the SIField loop: every value replaced by its field, in storage order. */
  method ApplyMsat(v: Slice, sh: Shape, ms: seq<real>)
    requires sh.Ok() && v.data.Length == sh.Dim() && |ms| == sh.N()
    modifies v.data
    ensures v.data[..] == SelfField(sh, old(v.data[..]), ms)
  {
    ghost var w := v.data[..];
    var p := 0;
    while p < v.data.Length
      invariant 0 <= p <= v.data.Length
      invariant forall q :: 0 <= q < p ==> v.data[q] == SelfField(sh, w, ms)[q]
      invariant forall q :: p <= q < v.data.Length ==> v.data[q] == w[q]
    {
      var r := p % sh.N();
      if ms[r] == 0.0 {
        v.data[p] := 0.0;
      } else {
        v.data[p] := -v.data[p] / ms[r];
      }
      p := p + 1;
    }
  }

  /** SIField: the field -T*m/Ms, on the host; m itself is left unchanged. */
  method SIField(t: Tensor, mSl: Slice, ms: seq<real>) returns (v: Slice)
    requires Compatible(t, mSl) && |ms| == t.shape.N()
    ensures fresh(v) && fresh(v.data) && t.Matches(v) && v.Valid() && v.onHost
    ensures v.data[..] == SelfField(t.shape, Product(t.shape, t.data[..], mSl.data[..]), ms)
  {
    var h := mSl;
    if !mSl.onHost {
      h := mSl.HostCopy();
    }
    v := t.TSP(h);
    ApplyMsat(v, t.shape, ms);
  }

  /** The rewrite of the SIFieldComplex loop: both parts of each value, in storage order. */
  method ApplyMsatComplex(v: CSlice, sh: Shape, ms: seq<real>)
    requires sh.Ok() && v.Valid() && v.re.data.Length == sh.Dim() && |ms| == sh.N()
    modifies v.re.data, v.im.data
    ensures v.re.data[..] == SelfField(sh, old(v.re.data[..]), ms)
    ensures v.im.data[..] == SelfField(sh, old(v.im.data[..]), ms)
  {
    ghost var wr, wi := v.re.data[..], v.im.data[..];
    var re, im := v.re.data, v.im.data;
    var p := 0;
    while p < re.Length
      invariant 0 <= p <= re.Length
      invariant forall q :: 0 <= q < p ==> re[q] == SelfField(sh, wr, ms)[q] && im[q] == SelfField(sh, wi, ms)[q]
      invariant forall q :: p <= q < re.Length ==> re[q] == wr[q] && im[q] == wi[q]
    {
      var r := p % sh.N();
      if ms[r] == 0.0 {
        re[p] := 0.0;
        im[p] := 0.0;
      } else {
        re[p] := -re[p] / ms[r];
        im[p] := -im[p] / ms[r];
      }
      p := p + 1;
    }
  }

  /**
   * SIFieldComplex: the same rule applied to the real and the imaginary part
   * of T*m. A pair split between host and device panics in CPUAccess.
   */
  method SIFieldComplex(t: Tensor, mSl: CSlice, ms: seq<real>) returns (res: Result<CSlice>)
    requires t.Valid() && t.shape.order == ZYX && t.shape.nComp == 3 && mSl.Valid() && t.Matches(mSl.re)
    requires |ms| == t.shape.N()
    ensures res.Panic? <==> mSl.re.onHost != mSl.im.onHost
    ensures res.Ok? ==> var v := res.value;
      fresh(v) && v.Valid() && t.Matches(v.re)
      && v.re.data[..] == SelfField(t.shape, Product(t.shape, t.data[..], mSl.re.data[..]), ms)
      && v.im.data[..] == SelfField(t.shape, Product(t.shape, t.data[..], mSl.im.data[..]), ms)
  {
    var access := mSl.CPUAccess();
    if access.Panic? {
      return Panic(access.message);
    }
    var h := mSl;
    if !access.value {
      h := mSl.HostCopy();
    }
    var v := t.TCSP(h);
    ApplyMsatComplex(v, t.shape, ms);
    res := Ok(v);
  }
}
