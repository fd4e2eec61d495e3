/**
 * The engine's vector fields (mumax data.Slice): nComp components over an
 * Nx x Ny x Nz grid, held on the host or on the device. Component c of the
 * cell with z,y,x index r is stored at c*N + r. The elementwise device
 * kernels the complex slices call (data.Copy, cuda.Scale, cuda.Madd2,
 * cuda.Madd4, cuda.Dot) are modelled by their elementwise meaning.
 */
module Slices {
  import opened Grid
  import opened Sums

  /** f*u, element by element. */
  function Scaled(f: real, u: seq<real>): (z: seq<real>)
    ensures |z| == |u| && forall k :: 0 <= k < |u| ==> z[k] == f * u[k]
  {
    seq(|u|, k requires 0 <= k < |u| => f * u[k])
  }

  /** fa*a + fb*b, element by element. */
  function Madd2Of(a: seq<real>, b: seq<real>, fa: real, fb: real): (z: seq<real>)
    requires |a| == |b|
    ensures |z| == |a|
  {
    seq(|a|, k requires 0 <= k < |a| => fa * a[k] + fb * b[k])
  }

  /** fa*a + fb*b + fc*c + fd*d, element by element. */
  function Madd4Of(a: seq<real>, b: seq<real>, c: seq<real>, d: seq<real>, fa: real, fb: real, fc: real, fd: real): (z: seq<real>)
    requires |a| == |b| == |c| == |d|
    ensures |z| == |a|
  {
    seq(|a|, k requires 0 <= k < |a| => fa * a[k] + fb * b[k] + fc * c[k] + fd * d[k])
  }

  class Slice {
    const nComp: nat
    const size: Size
    const onHost: bool
    const data: array<real>

    ghost predicate Valid()
    {
      data.Length == nComp * size.Cells()
    }

    /** A new zero-filled slice (data.NewSlice on the host, cuda.NewSlice on the device). */
    constructor (nComp: nat, size: Size, onHost: bool)
      ensures Valid() && fresh(data) && this.nComp == nComp && this.size == size && this.onHost == onHost
      ensures data[..] == seq(nComp * size.Cells(), k => 0.0)
    {
      this.nComp := nComp;
      this.size := size;
      this.onHost := onHost;
      data := new real[nComp * size.Cells()](k => 0.0);
    }

    /** A copy of the contents in fresh host memory. */
    method HostCopy() returns (h: Slice)
      requires Valid()
      ensures fresh(h) && fresh(h.data) && h.Valid() && h.onHost
      ensures h.nComp == nComp && h.size == size && h.data[..] == data[..]
    {
      h := new Slice(nComp, size, true);
      CopyData(h, this);
    }
  }

  /** cuda.Dot: sum over all components and cells of a*b. */
  function DotOf(a: Slice, b: Slice): real
    reads a.data, b.data
    requires a.data.Length == b.data.Length
  {
    Dot(a.data[..], b.data[..], a.data.Length)
  }

  /** data.Copy. */
  method CopyData(dst: Slice, src: Slice)
    requires dst.data.Length == src.data.Length
    modifies dst.data
    ensures dst.data[..] == old(src.data[..])
  {
    var k := 0;
    while k < dst.data.Length
      invariant 0 <= k <= dst.data.Length
      invariant forall q :: 0 <= q < k ==> dst.data[q] == old(src.data[q])
      invariant forall q :: k <= q < src.data.Length ==> src.data[q] == old(src.data[q])
    {
      dst.data[k] := src.data[k];
      k := k + 1;
    }
  }

  /** cuda.Scale: dst = f*src; dst may be src. */
  method Scale(dst: Slice, src: Slice, f: real)
    requires dst.data.Length == src.data.Length
    modifies dst.data
    ensures dst.data[..] == Scaled(f, old(src.data[..]))
  {
    ghost var want := Scaled(f, src.data[..]);
    var k := 0;
    while k < dst.data.Length
      invariant 0 <= k <= dst.data.Length
      invariant forall q :: 0 <= q < k ==> dst.data[q] == want[q]
      invariant forall q :: k <= q < src.data.Length ==> src.data[q] == old(src.data[q])
    {
      dst.data[k] := f * src.data[k];
      k := k + 1;
    }
  }

  /** cuda.Madd2: dst = fa*a + fb*b; dst may be a source. */
  method Madd2(dst: Slice, a: Slice, b: Slice, fa: real, fb: real)
    requires dst.data.Length == a.data.Length == b.data.Length
    modifies dst.data
    ensures dst.data[..] == Madd2Of(old(a.data[..]), old(b.data[..]), fa, fb)
  {
    ghost var want := Madd2Of(a.data[..], b.data[..], fa, fb);
    var k := 0;
    while k < dst.data.Length
      invariant 0 <= k <= dst.data.Length
      invariant forall q :: 0 <= q < k ==> dst.data[q] == want[q]
      invariant forall q :: k <= q < a.data.Length ==> a.data[q] == old(a.data[q])
      invariant forall q :: k <= q < b.data.Length ==> b.data[q] == old(b.data[q])
    {
      dst.data[k] := fa * a.data[k] + fb * b.data[k];
      k := k + 1;
    }
  }

  /** cuda.Madd4: dst = fa*a + fb*b + fc*c + fd*d; dst may be a source. */
  method Madd4(dst: Slice, a: Slice, b: Slice, c: Slice, d: Slice, fa: real, fb: real, fc: real, fd: real)
    requires dst.data.Length == a.data.Length == b.data.Length == c.data.Length == d.data.Length
    modifies dst.data
    ensures dst.data[..] == Madd4Of(old(a.data[..]), old(b.data[..]), old(c.data[..]), old(d.data[..]), fa, fb, fc, fd)
  {
    ghost var want := Madd4Of(a.data[..], b.data[..], c.data[..], d.data[..], fa, fb, fc, fd);
    var k := 0;
    while k < dst.data.Length
      invariant 0 <= k <= dst.data.Length
      invariant forall q :: 0 <= q < k ==> dst.data[q] == want[q]
      invariant forall q :: k <= q < a.data.Length ==> a.data[q] == old(a.data[q])
      invariant forall q :: k <= q < b.data.Length ==> b.data[q] == old(b.data[q])
      invariant forall q :: k <= q < c.data.Length ==> c.data[q] == old(c.data[q])
      invariant forall q :: k <= q < d.data.Length ==> d.data[q] == old(d.data[q])
    {
      dst.data[k] := fa * a.data[k] + fb * b.data[k] + fc * c.data[k] + fd * d.data[k];
      k := k + 1;
    }
  }
}
