/** Finite sums of products of reals, the accumulation loops of the source. */
module Sums {
  import opened Arith

  /** u[0]*v[0] + ... + u[n-1]*v[n-1], accumulated in index order. */
  function Dot(u: seq<real>, v: seq<real>, n: nat): real
    requires n <= |u| && n <= |v|
  {
    if n == 0 then 0.0 else Dot(u, v, n - 1) + u[n - 1] * v[n - 1]
  }

  lemma {:induction false} DotOfZeros(u: seq<real>, v: seq<real>, n: nat)
    requires n <= |u| && n <= |v|
    requires forall i :: 0 <= i < n ==> u[i] == 0.0
    ensures Dot(u, v, n) == 0.0
  {
    if n > 0 {
      DotOfZeros(u, v, n - 1);
    }
  }

  lemma {:induction false} DotCongruent(u: seq<real>, v: seq<real>, u': seq<real>, v': seq<real>, n: nat)
    requires n <= |u| && n <= |v| && n <= |u'| && n <= |v'|
    requires forall i :: 0 <= i < n ==> u[i] == u'[i] && v[i] == v'[i]
    ensures Dot(u, v, n) == Dot(u', v', n)
  {
    if n > 0 {
      DotCongruent(u, v, u', v', n - 1);
    }
  }

  /** One more term of the running sum. */
  lemma {:induction false} DotStep(u: seq<real>, v: seq<real>, n: nat, x: real)
    requires n < |u| && n < |v| && x == v[n]
    ensures Dot(u, v, n + 1) == Dot(u, v, n) + u[n] * x
  {
  }

  /** The running sum of u[p]*v[p] over p < |u|, accumulated in index order. */
  method DotSum(u: seq<real>, v: seq<real>) returns (r: real)
    requires |u| <= |v|
    ensures r == Dot(u, v, |u|)
  {
    r := 0.0;
    var p := 0;
    while p < |u|
      invariant 0 <= p <= |u| && r == Dot(u, v, p)
    {
      r := r + u[p] * v[p];
      p := p + 1;
    }
  }

  /** The two-term sum of the in-plane components. */
  lemma {:induction false} Dot2(u: seq<real>, v: seq<real>)
    requires 2 <= |u| && 2 <= |v|
    ensures Dot(u, v, 2) == 0.0 + u[0] * v[0] + u[1] * v[1]
  {
    assert Dot(u, v, 1) == 0.0 + u[0] * v[0];
  }

  /** The three-term sum of a 3x3 matrix-vector step. */
  lemma {:induction false} Dot3(u: seq<real>, v: seq<real>)
    requires 3 <= |u| && 3 <= |v|
    ensures Dot(u, v, 3) == 0.0 + u[0] * v[0] + u[1] * v[1] + u[2] * v[2]
  {
    assert Dot(u, v, 1) == 0.0 + u[0] * v[0];
  }

  /** Dot is additive in its first argument. */
  lemma {:induction false} DotAdditive(u: seq<real>, a: seq<real>, b: seq<real>, v: seq<real>, n: nat)
    requires n <= |u| && n <= |a| && n <= |b| && n <= |v|
    requires forall i :: 0 <= i < n ==> u[i] == a[i] + b[i]
    ensures Dot(u, v, n) == Dot(a, v, n) + Dot(b, v, n)
  {
    if n > 0 {
      DotAdditive(u, a, b, v, n - 1);
      DistributeSum(u[n - 1], a[n - 1], b[n - 1], v[n - 1]);
    }
  }

  /** Dot is linear in its second argument. */
  lemma {:induction false} DotLinear(u: seq<real>, v: seq<real>, a: real, x: seq<real>, b: real, y: seq<real>, n: nat)
    requires n <= |u| && n <= |v| && n <= |x| && n <= |y|
    requires forall i :: 0 <= i < n ==> v[i] == a * x[i] + b * y[i]
    ensures Dot(u, v, n) == a * Dot(u, x, n) + b * Dot(u, y, n)
  {
    if n > 0 {
      DotLinear(u, v, a, x, b, y, n - 1);
      LinearStep(Dot(u, x, n - 1), Dot(u, y, n - 1), u[n - 1], a, x[n - 1], b, y[n - 1]);
    }
  }

  lemma {:induction false} DotSymmetric(u: seq<real>, v: seq<real>, n: nat)
    requires n <= |u| && n <= |v|
    ensures Dot(u, v, n) == Dot(v, u, n)
  {
    if n > 0 {
      DotSymmetric(u, v, n - 1);
    }
  }

  lemma {:induction false} DotSelfNonNegative(u: seq<real>, n: nat)
    requires n <= |u|
    ensures Dot(u, u, n) >= 0.0
  {
    if n > 0 {
      DotSelfNonNegative(u, n - 1);
      SquareNonNegative(u[n - 1]);
    }
  }

  // ---------------------------------------------------------------------
  // Elementwise sums of several equally long sequences.

  predicate Covers(ss: seq<seq<real>>, p: nat)
  {
    forall t :: 0 <= t < |ss| ==> p < |ss[t]|
  }

  /** ss[0][p] + ss[1][p] + ..., added in argument order. */
  function SumAt(ss: seq<seq<real>>, p: nat): real
    requires Covers(ss, p)
  {
    if |ss| == 0 then 0.0 else SumAt(ss[..|ss| - 1], p) + ss[|ss| - 1][p]
  }

  lemma {:induction false} SumAtRemove(ss: seq<seq<real>>, t: nat, p: nat)
    requires Covers(ss, p) && t < |ss|
    ensures Covers(ss[..t] + ss[t + 1..], p)
    ensures SumAt(ss, p) == SumAt(ss[..t] + ss[t + 1..], p) + ss[t][p]
  {
    var rest := ss[..t] + ss[t + 1..];
    assert forall u :: 0 <= u < |rest| ==> rest[u] == (if u < t then ss[u] else ss[u + 1]);
    if t < |ss| - 1 {
      var front := ss[..|ss| - 1];
      SumAtRemove(front, t, p);
      assert front[..t] + front[t + 1..] == rest[..|rest| - 1];
    } else {
      assert rest == ss[..|ss| - 1];
    }
  }

  /** Removing the same element from two permutations of each other leaves permutations. */
  lemma {:induction false} RemoveFromPermutation<T>(ss: seq<T>, tt: seq<T>, t: nat)
    requires multiset(ss) == multiset(tt) && |ss| > 0 && t < |tt| && tt[t] == ss[|ss| - 1]
    ensures multiset(ss[..|ss| - 1]) == multiset(tt[..t] + tt[t + 1..])
  {
    var x := tt[t];
    assert ss == ss[..|ss| - 1] + [x];
    assert tt == tt[..t] + [x] + tt[t + 1..];
    assert multiset(ss[..|ss| - 1]) == multiset(ss) - multiset{x};
    assert multiset(tt[..t] + tt[t + 1..]) == multiset(tt) - multiset{x};
  }

  lemma {:induction false} CoversPermutation(ss: seq<seq<real>>, tt: seq<seq<real>>, p: nat)
    requires Covers(ss, p) && multiset(ss) == multiset(tt)
    ensures Covers(tt, p)
  {
    forall u | 0 <= u < |tt| ensures p < |tt[u]| {
      assert tt[u] in multiset(ss);
    }
  }

  /** The order of the summands does not matter. */
  lemma {:induction false} SumAtPermutation(ss: seq<seq<real>>, tt: seq<seq<real>>, p: nat)
    requires Covers(ss, p) && multiset(ss) == multiset(tt)
    ensures Covers(tt, p)
    ensures SumAt(ss, p) == SumAt(tt, p)
  {
    CoversPermutation(ss, tt, p);
    if |ss| > 0 {
      var x := ss[|ss| - 1];
      assert x in multiset(tt);
      var t :| 0 <= t < |tt| && tt[t] == x;
      SumAtRemove(tt, t, p);
      RemoveFromPermutation(ss, tt, t);
      SumAtPermutation(ss[..|ss| - 1], tt[..t] + tt[t + 1..], p);
    } else {
      assert |multiset(tt)| == 0;
    }
  }

  /** s[0] + ... + s[|s|-1], accumulated in index order. */
  function Total(s: seq<real>): real
  {
    if s == [] then 0.0 else Total(s[..|s| - 1]) + s[|s| - 1]
  }

  /** Total is additive over elementwise sums. */
  lemma {:induction false} TotalAdd(s: seq<real>, a: seq<real>, b: seq<real>)
    requires |a| == |s| && |b| == |s|
    requires forall i :: 0 <= i < |s| ==> s[i] == a[i] + b[i]
    ensures Total(s) == Total(a) + Total(b)
  {
    if s != [] {
      var n := |s| - 1;
      TotalAdd(s[..n], a[..n], b[..n]);
    }
  }

  /** The length-n sequence that holds v at position q and zero elsewhere. */
  function Point(n: nat, q: nat, v: real): (s: seq<real>)
    ensures |s| == n && forall i :: 0 <= i < n ==> s[i] == if i == q then v else 0.0
  {
    seq(n, i => if i == q then v else 0.0)
  }

  lemma {:induction false} TotalPoint(n: nat, q: nat, v: real)
    ensures Total(Point(n, q, v)) == if q < n then v else 0.0
  {
    if n > 0 {
      assert Point(n, q, v)[..n - 1] == Point(n - 1, q, v);
      TotalPoint(n - 1, q, v);
    }
  }

  /** A sum of three terms: what AddTensors of three tensors stores. */
  lemma {:induction false} SumAtThree(ss: seq<seq<real>>, p: nat)
    requires |ss| == 3 && Covers(ss, p)
    ensures SumAt(ss, p) == ss[0][p] + ss[1][p] + ss[2][p]
  {
    assert ss[..2][..1] == ss[..1];
    assert ss[..1][..0] == [];
    assert SumAt(ss[..1], p) == 0.0 + ss[0][p];
    assert SumAt(ss[..2], p) == SumAt(ss[..1], p) + ss[1][p];
  }
}
