/**
 * The storage convention of real eigen-solvers (LAPACK dgeev, ARPACK dneupd):
 * a real eigenvalue has a real eigenvector in one column; a complex
 * conjugate pair of eigenvalues, whose imaginary part is non-zero, shares
 * two consecutive columns: column i is the real part and column i+1 the
 * imaginary part of the first vector, and the second vector is its conjugate.
 */
module EigenPairs {
  import opened Complexes
  import opened Wrappers

  /** What column i holds: a real vector, the first or the second of a conjugate pair. */
  datatype Role = Single | First | Second

  /**
   * The roles the unpacking walk assigns from position i on, reading the
   * imaginary parts w: a zero gives one Single, a non-zero a First and a
   * Second, except at the last position, where a non-zero is a lone First.
   */
  function Roles(w: seq<real>, i: nat): (rs: seq<Role>)
    requires i <= |w|
    ensures |rs| == |w| - i
    decreases |w| - i
  {
    if i == |w| then []
    else if w[i] == 0.0 then [Single] + Roles(w, i + 1)
    else if i + 1 < |w| then [First, Second] + Roles(w, i + 2)
    else [First]
  }

  /** The walk ends on a non-zero imaginary part with no partner after it. */
  predicate Unpaired(w: seq<real>)
  {
    |w| > 0 && Roles(w, 0)[|w| - 1] == First
  }

  /** Every Second follows a First; every First but a final one precedes a Second. */
  predicate Alternating(rs: seq<Role>)
  {
    (forall k :: 0 <= k < |rs| && rs[k] == Second ==> k > 0 && rs[k - 1] == First)
    && (forall k :: 0 <= k < |rs| - 1 && rs[k] == First ==> rs[k + 1] == Second)
  }

  lemma {:induction false} RolesAlternate(w: seq<real>, i: nat)
    requires i <= |w|
    ensures Alternating(Roles(w, i))
    ensures |Roles(w, i)| > 0 ==> Roles(w, i)[0] != Second
    decreases |w| - i
  {
    if i < |w| {
      if w[i] == 0.0 {
        RolesAlternate(w, i + 1);
      } else if i + 1 < |w| {
        RolesAlternate(w, i + 2);
      }
    }
  }

  /** Role k is Single exactly when w[k] is zero, except for the Second of a pair. */
  lemma {:induction false} RolesOfZeros(w: seq<real>, i: nat, k: nat)
    requires i <= k < |w|
    ensures Roles(w, i)[k - i] == Single ==> w[k] == 0.0
    ensures Roles(w, i)[k - i] == First ==> w[k] != 0.0
    decreases |w| - i
  {
    if w[i] == 0.0 {
      if k > i {
        RolesOfZeros(w, i + 1, k);
      }
    } else if i + 1 < |w| && k > i + 1 {
      RolesOfZeros(w, i + 2, k);
    }
  }

  /** A walk that is at position i has the roles from i on still ahead of it. */
  lemma {:induction false} RolesStep(w: seq<real>, i: nat)
    requires i < |w| && Roles(w, 0)[i..] == Roles(w, i)
    ensures w[i] == 0.0 ==> Roles(w, 0)[i] == Single && Roles(w, 0)[i + 1..] == Roles(w, i + 1)
    ensures w[i] != 0.0 && i + 1 < |w| ==>
      Roles(w, 0)[i] == First && Roles(w, 0)[i + 1] == Second && Roles(w, 0)[i + 2..] == Roles(w, i + 2)
    ensures w[i] != 0.0 && i + 1 == |w| ==> Unpaired(w)
  {
    var rs := Roles(w, 0);
    assert rs[i..][0] == rs[i];
    if w[i] == 0.0 {
      assert rs[i + 1..] == rs[i..][1..];
    } else if i + 1 < |w| {
      assert rs[i..][1] == rs[i + 1];
      assert rs[i + 2..] == rs[i..][2..];
    }
  }

  /** Column i may be read as the vector its role names. */
  predicate Readable(rs: seq<Role>, i: nat)
  {
    i < |rs| && (rs[i] == First ==> i + 1 < |rs|) && (rs[i] == Second ==> i > 0)
  }

  /**
   * Vector i of columns cols (cols[i][j] is entry j of column i) under the
   * roles rs: the column itself, column i plus i times column i+1, or the
   * conjugate of column i-1 plus i times column i.
   */
  function Vector(cols: seq<seq<real>>, rs: seq<Role>, i: nat, n: nat): (v: seq<Complex>)
    requires |cols| == |rs| && Readable(rs, i) && Tall(cols, n)
    ensures |v| == n
  {
    match rs[i]
    case Single => seq(n, j requires 0 <= j < n => Complex(cols[i][j], 0.0))
    case First => seq(n, j requires 0 <= j < n => Complex(cols[i][j], cols[i + 1][j]))
    case Second => seq(n, j requires 0 <= j < n => Complex(cols[i - 1][j], -cols[i][j]))
  }

  /** The second vector of a pair is the entrywise conjugate of the first. */
  lemma {:induction false} ConjugatePair(cols: seq<seq<real>>, rs: seq<Role>, i: nat, n: nat)
    requires |cols| == |rs| && Alternating(rs) && i + 1 < |rs| && rs[i] == First && Tall(cols, n)
    ensures Readable(rs, i) && Readable(rs, i + 1)
    ensures forall j :: 0 <= j < n ==> Vector(cols, rs, i + 1, n)[j] == Conj(Vector(cols, rs, i, n)[j])
  {
  }


  /** Columns cols, each with at least n entries. */
  predicate Tall(cols: seq<seq<real>>, n: nat)
  {
    forall t :: 0 <= t < |cols| ==> n <= |cols[t]|
  }

  /** The j loop for a real eigenvalue: column i with zero imaginary part. */
  method SingleVector(cols: seq<seq<real>>, n: nat, i: nat) returns (vec: seq<Complex>)
    requires Tall(cols, n) && i < |cols|
    ensures |vec| == n && forall j :: 0 <= j < n ==> vec[j] == Complex(cols[i][j], 0.0)
  {
    vec := [];
    var j := 0;
    while j < n
      invariant 0 <= j <= n && |vec| == j
      invariant forall t :: 0 <= t < j ==> vec[t] == Complex(cols[i][t], 0.0)
    {
      vec := vec + [Complex(cols[i][j], 0.0)];
      j := j + 1;
    }
  }

  /** The j loop for a conjugate pair: columns i and i+1 as real and imaginary parts, and the conjugate. */
  method PairVectors(cols: seq<seq<real>>, n: nat, i: nat) returns (first: seq<Complex>, second: seq<Complex>)
    requires Tall(cols, n) && i + 1 < |cols|
    ensures |first| == n && |second| == n
    ensures forall j :: 0 <= j < n ==> first[j] == Complex(cols[i][j], cols[i + 1][j])
    ensures forall j :: 0 <= j < n ==> second[j] == Complex(cols[i][j], -cols[i + 1][j])
  {
    first, second := [], [];
    var j := 0;
    while j < n
      invariant 0 <= j <= n && |first| == j && |second| == j
      invariant forall t :: 0 <= t < j ==> first[t] == Complex(cols[i][t], cols[i + 1][t])
      invariant forall t :: 0 <= t < j ==> second[t] == Complex(cols[i][t], -cols[i + 1][t])
    {
      var re, im := cols[i][j], cols[i + 1][j];
      first := first + [Complex(re, im)];
      second := second + [Complex(re, -im)];
      j := j + 1;
    }
  }

  /** The unpacking loop after position i of the walk over w. */
  ghost predicate UnpackedUpTo(cols: seq<seq<real>>, w: seq<real>, n: nat, i: nat, vectors: seq<seq<Complex>>)
    requires |cols| == |w| && Tall(cols, n) && i <= |w|
  {
    var rs := Roles(w, 0);
    |vectors| == |w| && rs[i..] == Roles(w, i)
    && (forall t :: 0 <= t < i ==> (rs[t] == First ==> t + 1 < i))
    && forall t :: 0 <= t < i ==> Readable(rs, t) && vectors[t] == Vector(cols, rs, t, n)
  }

  /**
   * The unpacking loop: vector i is the column, pair half or conjugate its
   * role names, and i advances by one or two. A non-zero imaginary part at
   * the last index has no partner, and writing the partner is out of range.
   */
  method UnpackVectors(cols: seq<seq<real>>, w: seq<real>, n: nat) returns (outcome: Result<seq<seq<Complex>>>)
    requires |cols| == |w| && Tall(cols, n)
    ensures outcome.Panic? <==> Unpaired(w)
    ensures outcome.Ok? ==> (|outcome.value| == |w|
      && forall i :: 0 <= i < |w| ==> (Readable(Roles(w, 0), i) && outcome.value[i] == Vector(cols, Roles(w, 0), i, n)))
  {
    var vectors: seq<seq<Complex>> := seq(|w|, t => []);
    var i := 0;
    while i < |w|
      invariant 0 <= i <= |w| && UnpackedUpTo(cols, w, n, i, vectors)
      decreases |w| - i
    {
      RolesStep(w, i);
      if w[i] == 0.0 {
        var vec := SingleVector(cols, n, i);
        vectors := vectors[i := vec];
        i := i + 1;
      } else {
        if i + 1 >= |w| {
          return Panic("index out of range");
        }
        var first, second := PairVectors(cols, n, i);
        vectors := vectors[i := first][i + 1 := second];
        i := i + 2;
      }
    }
    assert !Unpaired(w) by {
      if |w| > 0 {
        assert Readable(Roles(w, 0), |w| - 1);
      }
    }
    outcome := Ok(vectors);
  }

  /** The loop of values: value i is re[i] + i im[i]. */
  method Values(re: seq<real>, im: seq<real>) returns (values: seq<Complex>)
    requires |re| == |im|
    ensures |values| == |re| && forall i :: 0 <= i < |re| ==> values[i] == Complex(re[i], im[i])
  {
    values := [];
    var k := 0;
    while k < |re|
      invariant 0 <= k <= |re| && |values| == k
      invariant forall t :: 0 <= t < k ==> values[t] == Complex(re[t], im[t])
    {
      values := values + [Complex(re[k], im[k])];
      k := k + 1;
    }
  }

  /** Eigenvalues and eigenvectors as the unpacking returns them. */
  datatype Eigenpairs = Eigenpairs(values: seq<Complex>, vectors: seq<seq<Complex>>)
}
