/**
 * Eig and GeevToCmplx of solver/eig.go: the unpacking of LAPACK dgeev's
 * row-major output. The factorisation itself is a foreign call; its status
 * info, eigenvalue parts wr, wi and eigenvector matrix V are parameters.
 */
module Geev {
  import opened Arith
  import opened Complexes
  import opened Wrappers
  import opened EigenPairs

  /** Column i of the row-major n x n matrix V: entry j is V[n*j + i]. */
  function Columns(n: nat, V: seq<real>): (cols: seq<seq<real>>)
    requires |V| == n * n
    ensures |cols| == n && forall i :: 0 <= i < n ==> |cols[i]| == n
  {
    seq(n, i requires 0 <= i < n =>
      seq(n, j requires 0 <= j < n => PackBound(j, i, n, n); V[j * n + i]))
  }

  /** GeevToCmplx: the eigenvalues wr + i wi and the vectors the roles of wi name. */
  method GeevToCmplx(n: nat, wr: seq<real>, wi: seq<real>, V: seq<real>) returns (outcome: Result<Eigenpairs>)
    requires |wr| == n && |wi| == n && |V| == n * n
    ensures outcome.Panic? <==> Unpaired(wi)
    ensures outcome.Ok? ==> (|outcome.value.values| == n
      && forall i :: 0 <= i < n ==> outcome.value.values[i] == Complex(wr[i], wi[i]))
    ensures outcome.Ok? ==> (|outcome.value.vectors| == n
      && forall i :: 0 <= i < n ==> (Readable(Roles(wi, 0), i)
        && outcome.value.vectors[i] == Vector(Columns(n, V), Roles(wi, 0), i, n)))
  {
    var values := Values(wr, wi);
    var vectors := UnpackVectors(Columns(n, V), wi, n);
    if vectors.Panic? {
      return Panic(vectors.message);
    }
    outcome := Ok(Eigenpairs(values, vectors.value));
  }

  /**
   * Eig: taking the address of the first element of wr panics for n == 0,
   * before dgeev is called; otherwise Eig panics when dgeev reports a
   * non-zero info, and unpacks its output when it does not.
   */
  method Eig(n: nat, info: int, wr: seq<real>, wi: seq<real>, V: seq<real>) returns (outcome: Result<Eigenpairs>)
    requires |wr| == n && |wi| == n && |V| == n * n
    ensures outcome.Panic? <==> n == 0 || info != 0 || Unpaired(wi)
    ensures outcome.Ok? ==> (|outcome.value.values| == n && |outcome.value.vectors| == n
      && forall i :: 0 <= i < n ==> (outcome.value.values[i] == Complex(wr[i], wi[i])
        && Readable(Roles(wi, 0), i) && outcome.value.vectors[i] == Vector(Columns(n, V), Roles(wi, 0), i, n)))
  {
    if n == 0 {
      return Panic("index out of range [0] with length 0");
    }
    if info != 0 {
      return Panic("dgeev failed");
    }
    outcome := GeevToCmplx(n, wr, wi, V);
  }
}
