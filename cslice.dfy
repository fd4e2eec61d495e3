/**
 * The complex field buffer of data/cslice.go: a pair of real slices, the real
 * part and the imaginary part, each of which may live on the host or on the
 * device. The pair is a reference to the two buffers, so operations on a
 * copy of the pair act on the same storage.
 */
module ComplexSlices {
  import opened Sums
  import opened Complexes
  import opened Slices
  import opened Wrappers

  class CSlice {
    var re: Slice
    var im: Slice

    /** Both parts have the same layout and are distinct buffers. */
    ghost predicate Valid()
      reads this, re, im
    {
      re.Valid() && im.Valid() && re.nComp == im.nComp && re.size == im.size && re.data != im.data
    }

    /** The complex values, element by element. */
    ghost function Value(): (z: seq<Complex>)
      reads this, re, im, re.data, im.data
      requires Valid()
      ensures |z| == re.data.Length
    {
      Zip(re.data[..], im.data[..])
    }

    constructor (re: Slice, im: Slice)
      ensures this.re == re && this.im == im
    {
      this.re := re;
      this.im := im;
    }

    /** Exchanges the two buffers: every value z becomes i*conj(z). */
    method SwitchParts()
      requires Valid()
      modifies this
      ensures Valid() && re == old(im) && im == old(re)
      ensures |Value()| == |old(Value())|
      ensures forall k :: 0 <= k < |Value()| ==> Value()[k] == Mul(I, Conj(old(Value())[k]))
    {
      var temp := re;
      re := im;
      im := temp;
      forall k | 0 <= k < |Value()| ensures Value()[k] == Mul(I, Conj(old(Value())[k])) {
        ISwapsParts(old(Value())[k]);
      }
    }

    /** Whether the pair is host-resident; a pair split between host and device panics. */
    function CPUAccess(): (r: Result<bool>)
      reads this, re, im
      ensures r.Ok? <==> re.onHost == im.onHost
      ensures r.Ok? ==> r.value == re.onHost && r.value == im.onHost
    {
      var r, i := re.onHost, im.onHost;
      if r && i then Ok(true)
      else if !r && !i then Ok(false)
      else Panic("the real and imaginary parts do not live in the same memory")
    }

    /** Host copies of both parts. */
    method HostCopy() returns (h: CSlice)
      requires Valid()
      ensures fresh(h) && fresh(h.re) && fresh(h.im) && fresh(h.re.data) && fresh(h.im.data)
      ensures h.Valid() && h.re.onHost && h.im.onHost && h.re.size == re.size && h.re.nComp == re.nComp
      ensures h.re.data[..] == re.data[..] && h.im.data[..] == im.data[..] && h.Value() == Value()
    {
      var r := re.HostCopy();
      var i := im.HostCopy();
      h := new CSlice(r, i);
    }
  }

  /** Applying i*conj twice gives back the original value: SwitchParts is an involution. */
  lemma {:induction false} SwitchTwice(z: Complex)
    ensures Mul(I, Conj(Mul(I, Conj(z)))) == z
  {
    ISwapsParts(z);
    ISwapsParts(Complex(z.im, z.re));
  }

  predicate SameLayout(a: CSlice, b: CSlice)
    reads a, b, a.re, b.re
  {
    a.re.nComp == b.re.nComp && a.re.size == b.re.size
  }

  /**
   * Copies src into dst part by part. When dst's real buffer is src's
   * imaginary buffer, the second copy sees the already overwritten buffer.
   */
  method Copy(dst: CSlice, src: CSlice)
    requires dst.Valid() && src.Valid() && SameLayout(dst, src)
    modifies dst.re.data, dst.im.data
    ensures dst.re.data[..] == old(src.re.data[..])
    ensures dst.im.data[..] == if src.im.data == dst.re.data then old(src.re.data[..]) else old(src.im.data[..])
  {
    CopyData(dst.re, src.re);
    CopyData(dst.im, src.im);
  }

  /** The conjugated inner product over all components and cells. */
  function Dotc(a: CSlice, b: CSlice): (z: Complex)
    reads a, b, a.re, a.im, b.re, b.im, a.re.data, a.im.data, b.re.data, b.im.data
    requires a.Valid() && b.Valid() && SameLayout(a, b)
    ensures z == Inner(a.Value(), b.Value(), a.re.data.Length)
  {
    var n := a.re.data.Length;
    InnerParts(a.re.data[..], a.im.data[..], b.re.data[..], b.im.data[..], n);
    Complex(DotOf(a.re, b.re) + DotOf(a.im, b.im), DotOf(a.re, b.im) - DotOf(a.im, b.re))
  }

  /** The complex inner product in terms of real dot products of the parts. */
  lemma {:induction false} InnerParts(ar: seq<real>, ai: seq<real>, br: seq<real>, bi: seq<real>, n: nat)
    requires |ar| == |ai| == |br| == |bi| && n <= |ar|
    ensures Inner(Zip(ar, ai), Zip(br, bi), n)
      == Complex(Dot(ar, br, n) + Dot(ai, bi, n), Dot(ar, bi, n) - Dot(ai, br, n))
  {
    if n > 0 {
      InnerParts(ar, ai, br, bi, n - 1);
      MulConjAt(ar, ai, br, bi, n - 1);
    }
  }

  /** Term k of the inner product, in terms of the parts. */
  lemma {:induction false} MulConjAt(ar: seq<real>, ai: seq<real>, br: seq<real>, bi: seq<real>, k: nat)
    requires |ar| == |ai| == |br| == |bi| && k < |ar|
    ensures Mul(Conj(Zip(ar, ai)[k]), Zip(br, bi)[k]) == Complex(ar[k] * br[k] + ai[k] * bi[k], ar[k] * bi[k] - ai[k] * br[k])
  {
    MulConjParts(Complex(ar[k], ai[k]), Complex(br[k], bi[k]));
  }

  /** Swapping the arguments conjugates the inner product. */
  lemma {:induction false} InnerConjugate(a: seq<Complex>, b: seq<Complex>, n: nat)
    requires n <= |a| && n <= |b|
    ensures Inner(b, a, n) == Conj(Inner(a, b, n))
  {
    if n > 0 {
      InnerConjugate(a, b, n - 1);
      MulConjSwap(a[n - 1], b[n - 1]);
      ConjAdd(Inner(a, b, n - 1), Mul(Conj(a[n - 1]), b[n - 1]));
    }
  }

  /** Dotc(b, a) is the conjugate of Dotc(a, b). */
  lemma {:induction false} DotcConjugate(a: CSlice, b: CSlice)
    requires a.Valid() && b.Valid() && SameLayout(a, b)
    ensures Dotc(b, a) == Conj(Dotc(a, b))
  {
    InnerConjugate(a.Value(), b.Value(), a.re.data.Length);
  }

  /** Dotc(a, a) is real and non-negative: the squared norm of a. */
  lemma {:induction false} DotcSelf(a: CSlice)
    requires a.Valid()
    ensures Dotc(a, a).im == 0.0 && Dotc(a, a).re >= 0.0
  {
    var n := a.re.data.Length;
    var ar, ai := a.re.data[..], a.im.data[..];
    DotSymmetric(ar, ai, n);
    DotSelfNonNegative(ar, n);
    DotSelfNonNegative(ai, n);
  }

  /** dst = f*src on both parts. */
  method SScal(dst: CSlice, src: CSlice, f: real)
    requires dst.Valid() && src.Valid() && SameLayout(dst, src)
    requires dst.re.data != src.im.data
    modifies dst.re.data, dst.im.data
    ensures dst.re.data[..] == Scaled(f, old(src.re.data[..]))
    ensures dst.im.data[..] == Scaled(f, old(src.im.data[..]))
  {
    Scale(dst.re, src.re, f);
    Scale(dst.im, src.im, f);
  }

  /** dst = f1*src1 + f2*src2 with real factors, on both parts alike. */
  method SMadd2(dst: CSlice, src1: CSlice, src2: CSlice, f1: real, f2: real)
    requires dst.Valid() && src1.Valid() && src2.Valid() && SameLayout(dst, src1) && SameLayout(dst, src2)
    requires dst.re.data != src1.im.data && dst.re.data != src2.im.data
    modifies dst.re.data, dst.im.data
    ensures dst.re.data[..] == Madd2Of(old(src1.re.data[..]), old(src2.re.data[..]), f1, f2)
    ensures dst.im.data[..] == Madd2Of(old(src1.im.data[..]), old(src2.im.data[..]), f1, f2)
  {
    Madd2(dst.re, src1.re, src2.re, f1, f2);
    Madd2(dst.im, src1.im, src2.im, f1, f2);
  }

  predicate Apart(dst: CSlice, src: CSlice)
    reads dst, src, dst.re, src.re, src.im
  {
    dst.re.data != src.re.data && dst.re.data != src.im.data
  }

  /** dst = f1*src1 + f2*src2 in complex arithmetic, element by element. */
  method CMadd2(dst: CSlice, src1: CSlice, src2: CSlice, f1: Complex, f2: Complex)
    requires dst.Valid() && src1.Valid() && src2.Valid() && SameLayout(dst, src1) && SameLayout(dst, src2)
    requires Apart(dst, src1) && Apart(dst, src2)
    modifies dst.re.data, dst.im.data
    ensures dst.Valid() && |dst.Value()| == |old(src1.Value())| == |old(src2.Value())|
    ensures forall k :: 0 <= k < |dst.Value()| ==>
      dst.Value()[k] == Add(Mul(f1, old(src1.Value())[k]), Mul(f2, old(src2.Value())[k]))
  {
    ghost var r1, i1, r2, i2 := src1.re.data[..], src1.im.data[..], src2.re.data[..], src2.im.data[..];
    Madd4(dst.re, src1.re, src1.im, src2.re, src2.im, f1.re, -f1.im, f2.re, -f2.im);
    Madd4(dst.im, src1.re, src1.im, src2.re, src2.im, f1.im, f1.re, f2.im, f2.re);
    MaddZip(dst.re.data[..], dst.im.data[..], r1, i1, r2, i2, f1, f2);
  }

  /** Real and imaginary Madd4 results zip to f1*z1 + f2*z2, element by element. */
  lemma {:induction false} MaddZip(re: seq<real>, im: seq<real>, r1: seq<real>, i1: seq<real>, r2: seq<real>, i2: seq<real>, f1: Complex, f2: Complex)
    requires |r1| == |i1| == |r2| == |i2|
    requires re == Madd4Of(r1, i1, r2, i2, f1.re, -f1.im, f2.re, -f2.im)
    requires im == Madd4Of(r1, i1, r2, i2, f1.im, f1.re, f2.im, f2.re)
    ensures |Zip(re, im)| == |r1|
    ensures forall k :: 0 <= k < |r1| ==> Zip(re, im)[k] == Add(Mul(f1, Zip(r1, i1)[k]), Mul(f2, Zip(r2, i2)[k]))
  {
    forall k | 0 <= k < |r1|
      ensures Zip(re, im)[k] == Add(Mul(f1, Zip(r1, i1)[k]), Mul(f2, Zip(r2, i2)[k]))
    {
      MaddParts(r1[k], i1[k], r2[k], i2[k], f1, f2);
    }
  }

  /** The two real Madd4 combinations are the parts of f1*z1 + f2*z2. */
  lemma {:induction false} MaddParts(r1: real, i1: real, r2: real, i2: real, f1: Complex, f2: Complex)
    ensures Complex(f1.re * r1 + -f1.im * i1 + f2.re * r2 + -f2.im * i2, f1.im * r1 + f1.re * i1 + f2.im * r2 + f2.re * i2)
      == Add(Mul(f1, Complex(r1, i1)), Mul(f2, Complex(r2, i2)))
  {
  }
}
