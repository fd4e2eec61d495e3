/**
 * fftFreq of quickdisp/disp.go: the sample frequencies of a discrete
 * Fourier transform of timeSteps samples taken δ apart, in the order of
 * numpy.fft.fftfreq (non-negative frequencies first, then the negative ones).
 */
module Disp {
  import opened Wrappers

  /** The number of non-negative frequencies: T/2 for even T and (T+1)/2 for odd T, both (T+1)/2. */
  function LimPositive(t: nat): (l: nat)
    ensures l == (t + 1) / 2 && l <= t && (t > 0 ==> l > 0)
  {
    if t % 2 == 0 then t / 2 else (t + 1) / 2
  }

  /**
   * numpy.fft.fftfreq(n, d), entry i: with N = (n-1)/2 + 1, the entries
   * 0 .. N-1 over n*d and then -(n/2) .. -1 over n*d.
   */
  function NumpyFftFreq(n: nat, d: real, i: nat): real
    requires d != 0.0 && i < n
  {
    var positives := (n - 1) / 2 + 1;
    if i < positives then i as real / (n as real * d)
    else (-(n / 2) + (i - positives)) as real / (n as real * d)
  }

  /**
   * fftFreq: make panics for a negative length; otherwise entry i is
   * i*denom below LimPositive and (i-T)*denom from there, with
   * denom = 1/(T*δ), which is numpy's fftfreq.
   */
  method FftFreq(timeSteps: int, delta: real) returns (r: Result<seq<real>>)
    requires delta != 0.0
    ensures r.Panic? <==> timeSteps < 0
    ensures r.Ok? ==> |r.value| == timeSteps && forall i :: 0 <= i < timeSteps ==> r.value[i] == NumpyFftFreq(timeSteps, delta, i)
    ensures r.Ok? && timeSteps > 0 ==> r.value[0] == 0.0
  {
    if timeSteps < 0 {
      return Panic("makeslice: len out of range");
    }
    var t: nat := timeSteps;
    var frequencies := new real[t](k => 0.0);
    var lim := LimPositive(t);
    if t == 0 {
      return Ok(frequencies[..]);
    }
    var denom := 1.0 / (t as real * delta);
    var i := 0;
    while i < lim
      invariant 0 <= i <= lim
      invariant forall k :: 0 <= k < i ==> frequencies[k] == Entry(t, denom, k)
    {
      frequencies[i] := i as real * denom;
      i := i + 1;
    }
    while i < t
      invariant lim <= i <= t
      invariant forall k :: 0 <= k < i ==> frequencies[k] == Entry(t, denom, k)
    {
      frequencies[i] := (i - t) as real * denom;
      i := i + 1;
    }
    r := Ok(frequencies[..]);
    forall k | 0 <= k < t
      ensures r.value[k] == NumpyFftFreq(t, delta, k)
    {
      NumpyAgrees(t, delta, k);
    }
  }

  /** What the two loops of fftFreq store at i: i*denom below LimPositive(n) and (i-n)*denom from there. */
  function Entry(n: nat, denom: real, i: nat): real
  {
    (if i < LimPositive(n) then i else i - n) as real * denom
  }

  /** The loops of fftFreq compute numpy's entries. */
  lemma {:induction false} NumpyAgrees(n: nat, d: real, i: nat)
    requires d != 0.0 && i < n
    ensures NumpyFftFreq(n, d, i) == Entry(n, 1.0 / (n as real * d), i)
  {
    var positives := (n - 1) / 2 + 1;
    assert positives == LimPositive(n);
    var x := if i < positives then i else i - n;
    assert i >= positives ==> -(n / 2) + (i - positives) == i - n;
    assert x as real * (1.0 / (n as real * d)) == x as real / (n as real * d);
  }

  /** For a positive δ the entries in numpy order are non-negative exactly on the first LimPositive(n) indices. */
  lemma {:induction false} FftFreqSigns(n: nat, d: real, i: nat)
    requires d > 0.0 && i < n
    ensures NumpyFftFreq(n, d, i) >= 0.0 <==> i < LimPositive(n)
    ensures i == 0 ==> NumpyFftFreq(n, d, i) == 0.0
  {
    var positives := (n - 1) / 2 + 1;
    assert positives == LimPositive(n);
    var e := n as real * d;
    assert e > 0.0;
    if i >= positives {
      var k := -(n / 2) + (i - positives);
      assert k < 0;
      assert k as real / e < 0.0;
    }
  }

  /** For a positive δ the entries increase strictly within each half, and every negative one is below every non-negative one. */
  lemma {:induction false} FftFreqOrder(n: nat, d: real, i: nat, j: nat)
    requires d > 0.0 && i < j < n
    ensures (j < LimPositive(n) || LimPositive(n) <= i) ==> NumpyFftFreq(n, d, i) < NumpyFftFreq(n, d, j)
    ensures i < LimPositive(n) <= j ==> NumpyFftFreq(n, d, j) < NumpyFftFreq(n, d, i)
  {
    var positives := (n - 1) / 2 + 1;
    var e := n as real * d;
    assert e > 0.0;
    if j < positives {
      DivLess(i as real, j as real, e);
    } else if positives <= i {
      var ki, kj := -(n / 2) + (i - positives), -(n / 2) + (j - positives);
      assert ki < kj;
      DivLess(ki as real, kj as real, e);
    } else {
      FftFreqSigns(n, d, i);
      FftFreqSigns(n, d, j);
    }
  }

  /** Division by a positive number keeps strict order. */
  lemma {:induction false} DivLess(a: real, b: real, e: real)
    requires e > 0.0 && a < b
    ensures a / e < b / e
  {
    var d := (b - a) / e;
    assert d * e == b - a;
    assert b / e - a / e == d;
  }
}
