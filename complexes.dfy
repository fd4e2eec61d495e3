/** Complex numbers over the reals (Go's complex64/complex128, idealised). */
module Complexes {
  datatype Complex = Complex(re: real, im: real)

  const Zero := Complex(0.0, 0.0)
  const I := Complex(0.0, 1.0)

  function Add(a: Complex, b: Complex): Complex
  {
    Complex(a.re + b.re, a.im + b.im)
  }

  function Mul(a: Complex, b: Complex): Complex
  {
    Complex(a.re * b.re - a.im * b.im, a.re * b.im + a.im * b.re)
  }

  function Conj(a: Complex): Complex
  {
    Complex(a.re, -a.im)
  }

  function OfReal(x: real): Complex
  {
    Complex(x, 0.0)
  }

  /** i * conj(z) exchanges the real and the imaginary part of z. */
  lemma {:induction false} ISwapsParts(z: Complex)
    ensures Mul(I, Conj(z)) == Complex(z.im, z.re)
  {
  }

  /** conj(a)*b written out in real arithmetic. */
  lemma {:induction false} MulConjParts(a: Complex, b: Complex)
    ensures Mul(Conj(a), b) == Complex(a.re * b.re + a.im * b.im, a.re * b.im - a.im * b.re)
  {
  }

  lemma {:induction false} MulConjSwap(a: Complex, b: Complex)
    ensures Mul(Conj(b), a) == Conj(Mul(Conj(a), b))
  {
    MulConjParts(a, b);
    MulConjParts(b, a);
  }

  lemma {:induction false} ConjAdd(a: Complex, b: Complex)
    ensures Conj(Add(a, b)) == Add(Conj(a), Conj(b))
  {
  }

  /** Sum over k < n of conj(a[k]) * b[k]. */
  function Inner(a: seq<Complex>, b: seq<Complex>, n: nat): Complex
    requires n <= |a| && n <= |b|
  {
    if n == 0 then Zero else Add(Inner(a, b, n - 1), Mul(Conj(a[n - 1]), b[n - 1]))
  }

  /** Pairs up real and imaginary parts. */
  function Zip(re: seq<real>, im: seq<real>): (z: seq<Complex>)
    requires |re| == |im|
    ensures |z| == |re| && forall k :: 0 <= k < |z| ==> z[k] == Complex(re[k], im[k])
  {
    seq(|re|, k requires 0 <= k < |re| => Complex(re[k], im[k]))
  }

  /** The real parts of a sequence of complex numbers. */
  function Re(z: seq<Complex>): (re: seq<real>)
    ensures |re| == |z|
  {
    seq(|z|, k requires 0 <= k < |z| => z[k].re)
  }

  /** The imaginary parts of a sequence of complex numbers. */
  function Im(z: seq<Complex>): (im: seq<real>)
    ensures |im| == |z|
  {
    seq(|z|, k requires 0 <= k < |z| => z[k].im)
  }
}
