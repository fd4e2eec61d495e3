/**
 * The Go side of the ARPACK wrapper in solver/arnoldi_core.go: parameter
 * defaulting and validation in newArnoldiD, the workspace it allocates, the
 * reverse-communication windows iterate hands back, the conjugate-pair
 * unpacking in extract and the info-code descriptions. The routines dnaupd
 * and dneupd are foreign: what they leave behind is a parameter.
 */
module Arnoldi {
  import opened Arith
  import opened Complexes
  import opened Wrappers
  import opened EigenPairs

  function Min(a: int, b: int): int { if a <= b then a else b }
  function Max(a: int, b: int): int { if a >= b then a else b }

  // ---------------------------------------------------------------------
  // The number of Lanczos/Arnoldi vectors ncv.

  /** The default scipy's eigs takes for ncv: 2 nev + 1, raised to 20, capped at n. */
  function ScipyNcv(n: int, nev: int): (ncv: int)
    ensures ncv <= n
    ensures ncv < n ==> ncv >= 20 && ncv >= 2 * nev + 1
    ensures ncv == n || ncv == 20 || ncv == 2 * nev + 1
  {
    Min(Max(2 * nev + 1, 20), n)
  }

  /** The default as newArnoldiD computes it: the cap at n applies only when 2 nev + 1 exceeds n. */
  function DefaultNcvAsWritten(n: int, nev: int): (ncv: int)
    ensures 2 * nev + 1 > n ==> ncv == n
    ensures 2 * nev + 1 <= n ==> ncv >= 20 && ncv >= 2 * nev + 1 && (ncv == 20 || ncv == 2 * nev + 1)
  {
    var c := 2 * nev + 1;
    if c > n then n else if c < 20 then 20 else c
  }

  /** The two defaults differ exactly on problems smaller than 20 with 2 nev + 1 <= n. */
  lemma {:induction false} DefaultNcvAgreesWithScipy(n: int, nev: int)
    ensures DefaultNcvAsWritten(n, nev) == ScipyNcv(n, nev) <==> !(2 * nev + 1 <= n < 20)
    ensures 2 * nev + 1 <= n < 20 ==> DefaultNcvAsWritten(n, nev) == 20 > n
  {
  }

  /**
   * The defaulting and the two validation panics of newArnoldiD as written:
   * more than n-1 eigenvalues, and ncv outside [nev+2, n]. A negative ncv
   * asks for the default.
   */
  function NcvAsWritten(n: int, nev: int, ncv: int): (r: Result<int>)
    ensures r.Ok? ==> nev + 2 <= r.value <= n
    ensures ncv >= 0 ==> (r.Ok? <==> nev + 2 <= ncv <= n) && (r.Ok? ==> r.value == ncv)
    ensures ncv < 0 ==> (r.Ok? <==> nev + 2 <= n && (2 * nev + 1 > n || 20 <= n))
  {
    if nev > n - 1 then Panic("Can only compute maximum n-1 eigenvalues")
    else
      var c := if ncv < 0 then DefaultNcvAsWritten(n, nev) else ncv;
      if c > n || c < nev + 2 then Panic("Must have nev + 2 <= ncv <= n") else Ok(c)
  }

  /** The same validation with the scipy default, which newArnoldiD means to reproduce. */
  function NcvFor(n: int, nev: int, ncv: int): (r: Result<int>)
    ensures r.Ok? ==> nev + 2 <= r.value <= n
    ensures ncv >= 0 ==> (r.Ok? <==> nev + 2 <= ncv <= n) && (r.Ok? ==> r.value == ncv)
    ensures ncv < 0 ==> (r.Ok? <==> nev + 2 <= n)
    ensures r.Ok? && n >= 0 ==> r.value >= 0
  {
    if nev > n - 1 then Panic("Can only compute maximum n-1 eigenvalues")
    else
      var c := if ncv < 0 then ScipyNcv(n, nev) else ncv;
      if c > n || c < nev + 2 then Panic("Must have nev + 2 <= ncv <= n") else Ok(c)
  }

  /**
   * On a problem smaller than 20 with 2 nev + 1 <= n the written default is
   * 20, which the validation then rejects, although ncv = n is admissible.
   */
  lemma {:induction false} DefaultRejectsSmallProblems(n: int, nev: int)
    requires 1 <= nev && 2 * nev + 1 <= n < 20
    ensures nev + 2 <= n
    ensures NcvAsWritten(n, nev, -1).Panic?
    ensures NcvFor(n, nev, -1) == Ok(n)
  {
  }

  /** n = 10, nev = 2 with the default ncv panics. */
  lemma {:induction false} DefaultRejectsTenTwo()
    ensures NcvAsWritten(10, 2, -1).Panic? && NcvFor(10, 2, -1) == Ok(10)
  {
    DefaultRejectsSmallProblems(10, 2);
  }

  /** nev = n - 1 is let through the first check and always refused by the second. */
  lemma {:induction false} NevNMinusOneRejected(n: int, ncv: int)
    ensures NcvAsWritten(n, n - 1, ncv).Panic? && NcvFor(n, n - 1, ncv).Panic?
  {
  }

  /** nev = n - 2 with n > 3 takes ncv = n, in both versions. */
  lemma {:induction false} NevNMinusTwoAccepted(n: int)
    requires n > 3
    ensures NcvAsWritten(n, n - 2, -1) == Ok(n) && NcvFor(n, n - 2, -1) == Ok(n)
  {
  }

  // ---------------------------------------------------------------------
  // The reverse-communication windows.

  /** The half-open range [start, end) of workd a Go slice expression takes. */
  datatype Span = Span(start: int, end: int)

  /**
   * workd[p-1 : p+n-1] for a one-based ARPACK pointer p: a Go slice
   * expression panics unless 0 <= low <= high <= len(workd).
   */
  function Window(p: int, n: nat, len: nat): (r: Result<Span>)
    ensures r.Ok? <==> 1 <= p && p - 1 + n <= len
    ensures r.Ok? ==> r.value.start == p - 1 && r.value.end == r.value.start + n
  {
    var low, high := p - 1, p + n - 1;
    if 0 <= low <= high <= len then Ok(Span(low, high)) else Panic("slice bounds out of range")
  }

  /** What iterate returns: ido 99 and two nil slices, or ido with the input and output windows. */
  datatype Request = Finished | Request(ido: int, x: Span, y: Span)

  /** The return statement of iterate for the ido and pointers dnaupd left behind. */
  function RequestFor(ido: int, p0: int, p1: int, n: nat, len: nat): (r: Result<Request>)
    ensures ido == 99 ==> r == Ok(Finished)
    ensures ido != 99 ==> (r.Ok? <==> Window(p0, n, len).Ok? && Window(p1, n, len).Ok?)
    ensures ido != 99 && r.Ok? ==> (r.value.Request? && r.value.ido == ido
      && r.value.x.start == p0 - 1 && r.value.x.end == p0 - 1 + n
      && r.value.y.start == p1 - 1 && r.value.y.end == p1 - 1 + n)
  {
    if ido != 99 then
      var x := Window(p0, n, len);
      var y := Window(p1, n, len);
      if x.Panic? then Panic(x.message)
      else if y.Panic? then Panic(y.message)
      else Ok(Request(ido, x.value, y.value))
    else Ok(Finished)
  }

  // ---------------------------------------------------------------------
  // The extraction.

  /** The rvec, howmany and select arguments extract passes to dneupd. */
  datatype DneupdArgs = DneupdArgs(rvec: int, howmany: string, select: seq<int>)

  function ExtractArguments(computeVectors: bool, selection: Option<seq<int>>, ncv: nat): (a: DneupdArgs)
    ensures a.rvec == (if computeVectors then 1 else 0)
    ensures a.howmany == "A" <==> selection.None?
    ensures a.howmany == "S" <==> selection.Some?
    ensures selection.None? ==> |a.select| == ncv && forall k :: 0 <= k < ncv ==> a.select[k] == 0
    ensures selection.Some? ==> a.select == selection.value
  {
    DneupdArgs(if computeVectors then 1 else 0,
      if selection.None? then "A" else "S",
      if selection.None? then seq(ncv, k => 0) else selection.value)
  }

  /** Column i of count columns of length n ends within them. */
  lemma {:induction false} ColumnFits(i: nat, count: nat, n: nat)
    requires i < count
    ensures i * n + n <= count * n
  {
    DistributeNat(i, 1, n);
    MulLe(i + 1, count, n);
  }

  /** Column i of the eigenvector output z with leading dimension n: entries z[n*i .. n*i+n]. */
  function ArpackColumns(z: seq<real>, n: nat, count: nat): (cols: seq<seq<real>>)
    requires count * n <= |z|
    ensures |cols| == count && Tall(cols, n)
  {
    seq(count, i requires 0 <= i < count => Column(z, n, count, i))
  }

  function Column(z: seq<real>, n: nat, count: nat, i: nat): (col: seq<real>)
    requires count * n <= |z| && i < count
    ensures |col| == n
  {
    var start := i * n;
    ColumnFits(i, count, n);
    z[start .. start + n]
  }

  /** Entry j of column i is v[ldv*i + j], the element extract reads. */
  lemma {:induction false} ArpackColumnsAt(z: seq<real>, n: nat, count: nat, i: nat, j: nat)
    requires count * n <= |z| && i < count && j < n
    ensures i * n + j < |z| && ArpackColumns(z, n, count)[i][j] == z[n * i + j]
  {
    ColumnFits(i, count, n);
    assert ArpackColumns(z, n, count)[i] == Column(z, n, count, i);
  }

  /** What dnaupd leaves in ido, iparam, ipntr and info. */
  datatype Dnaupd = Dnaupd(ido: int, iparam: seq<int>, ipntr: seq<int>, info: int)

  /** What dneupd leaves in dr, di, the eigenvector array, iparam and info. */
  datatype Dneupd = Dneupd(dr: seq<real>, di: seq<real>, z: seq<real>, iparam: seq<int>, info: int)

  /**
   * The k values dr[i] + i di[i] and the k vectors the roles of di[..k]
   * name, read from the columns of z.
   */
  ghost predicate ExtractedFrom(reply: Dneupd, n: nat, ncv: nat, k: nat, e: Eigenpairs)
  {
    k < ncv && |reply.z| == n * ncv && k <= |reply.dr| && k <= |reply.di|
    && |e.values| == k && |e.vectors| == k
    && (forall i :: 0 <= i < k ==> e.values[i] == Complex(reply.dr[i], reply.di[i]))
    && (MulLe(k, ncv, n);
        forall i :: 0 <= i < k ==> (Readable(Roles(reply.di[..k], 0), i)
          && e.vectors[i] == Vector(ArpackColumns(reply.z, n, k), Roles(reply.di[..k], 0), i, n)))
  }

  // ---------------------------------------------------------------------
  // The info codes.

  const IterateInfoDescription: map<int, string> := map[
    0 := "Normal exit.",
    1 := "Maximum number of iterations taken.\n       All possible eigenvalues of OP has been found. IPARAM(5) \n       returns the number of wanted converged Ritz values.",
    2 := "No longer an informational error. Deprecated starting \n       with release 2 of ARPACK.",
    3 := "No shifts could be applied during a cycle of the \n       Implicitly restarted Arnoldi iteration. One possibility \n       is to increase the size of NCV relative to NEV. ",
    -1 := "N must be positive.",
    -2 := "NEV must be positive.",
    -3 := "NCV-NEV >= 2 and less than or equal to N.",
    -4 := "The maximum number of Arnoldi update iterations allowed \n        must be greater than zero.",
    -5 := "WHICH must be one of 'LM', 'SM', 'LR', 'SR', 'LI', 'SI'",
    -6 := "BMAT must be one of 'I' or 'G'.",
    -7 := "Length of private work array WORKL is not sufficient.",
    -8 := "Error return from LAPACK eigenvalue calculation;",
    -9 := "Starting vector is zero.",
    -10 := "IPARAM(7) must be 1,2,3,4.",
    -11 := "IPARAM(7) = 1 and BMAT = 'G' are incompatible.",
    -12 := "IPARAM(1) must be equal to 0 or 1.",
    -13 := "NEV and WHICH = 'BE' are incompatible.",
    -9999 := "Could not build an Arnoldi factorization.\n           IPARAM(5) returns the size of the current Arnoldi \n           factorization. The user is advised to check that \n           enough workspace and array storage has been allocated."
  ]

  const ExtractInfoDescription: map<int, string> := map[
    0 := "Normal exit.",
    1 := "The Schur form computed by LAPACK routine dlahqr \n       could not be reordered by LAPACK routine dtrsen. \n       Re-enter subroutine dneupd  with IPARAM(5)NCV and \n       increase the size of the arrays DR and DI to have \n       dimension at least dimension NCV and allocate at least NCV \n       columns for Z. NOTE: Not necessary if Z and V share \n       the same space. Please notify the authors if this error\n       occurs.",
    -1 := "N must be positive.",
    -2 := "NEV must be positive.",
    -3 := "NCV-NEV >= 2 and less than or equal to N.",
    -5 := "WHICH must be one of 'LM', 'SM', 'LR', 'SR', 'LI', 'SI'",
    -6 := "BMAT must be one of 'I' or 'G'.",
    -7 := "Length of private work WORKL array is not sufficient.",
    -8 := "Error return from calculation of a real Schur form.\n        Informational error from LAPACK routine dlahqr .",
    -9 := "Error return from calculation of eigenvectors.\n    \tInformational error from LAPACK routine dtrevc.",
    -10 := "IPARAM(7) must be 1,2,3,4.",
    -11 := "IPARAM(7) = 1 and BMAT = 'G' are incompatible.",
    -12 := "HOWMNY = 'S' not yet implemented",
    -13 := "HOWMNY must be one of 'A' or 'P' if RVEC = .true.",
    -14 := "DNAUPD  did not find any eigenvalues to sufficient \n         accuracy",
    -15 := "DNEUPD got a different count of the number of converged \n         Ritz values than DNAUPD got.  This indicates the user \n         probably made an error in passing data from DNAUPD to \n         DNEUPD or that the data was modified before entering \n         DNEUPD"
  ]

  const IterateCodes: set<int> := {0, 1, 2, 3, -1, -2, -3, -4, -5, -6, -7, -8, -9, -10, -11, -12, -13, -9999}
  const ExtractCodes: set<int> := {0, 1, -1, -2, -3, -5, -6, -7, -8, -9, -10, -11, -12, -13, -14, -15}

  /** A Go map lookup: the stored string, or the empty string for a missing key. */
  function Describe(m: map<int, string>, code: int): (d: string)
    ensures code in m ==> d == m[code]
    ensures code !in m ==> d == ""
  {
    if code in m then m[code] else ""
  }

  /** The description iterateInfo returns is non-empty exactly for the codes dnaupd documents. */
  lemma {:induction false} IterateDescribed(code: int)
    ensures Describe(IterateInfoDescription, code) != "" <==> code in IterateCodes
  {
  }

  /** The description extractInfo returns is non-empty exactly for the codes dneupd documents. */
  lemma {:induction false} ExtractDescribed(code: int)
    ensures Describe(ExtractInfoDescription, code) != "" <==> code in ExtractCodes
  {
  }

  // ---------------------------------------------------------------------
  // The solver state.

  /** With 0 <= ncv <= n, the workspace is empty exactly when ncv is zero. */
  lemma {:induction false} EmptyWorkspace(n: int, ncv: int)
    requires 0 <= ncv <= n
    ensures n * ncv == 0 <==> ncv == 0
    ensures 3 * n == 0 ==> ncv == 0
    ensures 3 * ncv * ncv + 6 * ncv == 0 <==> ncv == 0
  {
    if ncv > 0 {
      MulLe(1, ncv, n);
      MulLe(1, ncv, ncv);
    }
  }

  /**
   * An arnoldiD: the problem parameters, the starting/residual vector, the
   * workspace and the reverse-communication state ido, iparam, ipntr and
   * info that the foreign routines update.
   */
  class ArnoldiD {
    const n: int
    const nev: int
    const ncv: int
    const bmat: string
    const which: string
    const tol: real
    const resid: array<real>
    const ldv: int
    const v: array<real>
    const workd: array<real>
    const workl: array<real>
    const lworkl: int
    var ido: int
    var iparam: seq<int>
    var ipntr: seq<int>
    var info: int

    /** The sizes newArnoldiD allocates and the bounds its validation leaves. */
    predicate Valid()
      reads this
    {
      nev + 2 <= ncv <= n && 0 <= ncv && ldv == n
      && v.Length == n * ncv && workd.Length == 3 * n
      && lworkl == 3 * ncv * ncv + 6 * ncv && workl.Length == lworkl
      && |iparam| == 11 && |ipntr| == 14
    }

    /** The struct literal of newArnoldiD, with the vectors it allocates. */
    constructor (n: int, nev: int, ncv: int, bmat: string, which: string, tol: real, maxIter: int,
                 resid: array<real>, info: int)
      requires nev + 2 <= ncv <= n && 0 <= ncv
      ensures Valid()
      ensures this.n == n && this.nev == nev && this.ncv == ncv && this.bmat == bmat && this.which == which
      ensures this.tol == tol && this.resid == resid && this.info == info && ido == 0
      ensures fresh(v) && fresh(workd) && fresh(workl)
      ensures v[..] == seq(n * ncv, k => 0.0) && workd[..] == seq(3 * n, k => 0.0)
      ensures workl[..] == seq(3 * ncv * ncv + 6 * ncv, k => 0.0)
      ensures iparam == [1, 0, maxIter, 1, 0, 0, 1, 0, 0, 0, 0] && ipntr == seq(14, k => 0)
    {
      assert 0 <= ncv * ncv;
      this.n := n;
      this.nev := nev;
      this.ncv := ncv;
      this.bmat := bmat;
      this.which := which;
      this.tol := tol;
      this.resid := resid;
      this.ldv := n;
      this.v := new real[n * ncv](k => 0.0);
      this.workd := new real[3 * n](k => 0.0);
      this.workl := new real[3 * ncv * ncv + 6 * ncv](k => 0.0);
      this.lworkl := 3 * ncv * ncv + 6 * ncv;
      this.ido := 0;
      this.iparam := [1, 0, maxIter, 1, 0, 0, 1, 0, 0, 0, 0];
      this.ipntr := seq(14, k => 0);
      this.info := info;
    }

    /**
     * iterate after dnaupd has run: the pointer arguments evaluated before
     * the call panic on an empty resid or an empty workspace; then the
     * state holds what dnaupd left and the windows are taken from workd.
     */
    method Iterate(reply: Dnaupd) returns (r: Result<Request>)
      requires Valid() && |reply.iparam| == 11 && |reply.ipntr| == 14
      modifies this
      ensures Valid()
      ensures resid.Length == 0 || ncv == 0 ==> r.Panic? && unchanged(this)
      ensures resid.Length > 0 && ncv > 0 ==> (ido == reply.ido && iparam == reply.iparam
        && ipntr == reply.ipntr && info == reply.info
        && r == RequestFor(reply.ido, reply.ipntr[0], reply.ipntr[1], n, workd.Length))
    {
      EmptyWorkspace(n, ncv);
      if resid.Length == 0 || v.Length == 0 || workd.Length == 0 || workl.Length == 0 {
        return Panic("index out of range");
      }
      ido, iparam, ipntr, info := reply.ido, reply.iparam, reply.ipntr, reply.info;
      r := RequestFor(ido, ipntr[0], ipntr[1], n, workd.Length);
    }

    /**
     * extract after dneupd has run: the pointer arguments panic when there
     * is no first element of select, dr (nev < 0) or resid; then
     * nevReturned = iparam[4] values and vectors are unpacked, panicking
     * when nevReturned is negative, exceeds the nev+1 entries of dr and di,
     * or ends on an unpaired complex value.
     */
    method Extract(computeVectors: bool, selection: Option<seq<int>>, reply: Dneupd) returns (r: Result<Eigenpairs>)
      requires Valid() && |reply.iparam| == 11 && |reply.z| == v.Length
      requires nev >= 0 ==> |reply.dr| == nev + 1 && |reply.di| == nev + 1
      modifies this
      ensures Valid()
      ensures nev < 0 || resid.Length == 0 || |ExtractArguments(computeVectors, selection, ncv).select| == 0 ==>
        r.Panic? && unchanged(this)
      ensures !(nev < 0 || resid.Length == 0 || |ExtractArguments(computeVectors, selection, ncv).select| == 0) ==>
        (iparam == reply.iparam && info == reply.info
        && (r.Panic? <==> (reply.iparam[4] < 0 || reply.iparam[4] > nev + 1
          || Unpaired(reply.di[..reply.iparam[4]]))))
      ensures r.Ok? ==> 0 <= reply.iparam[4] <= nev + 1 && ExtractedFrom(reply, n, ncv, reply.iparam[4], r.value)
    {
      var args := ExtractArguments(computeVectors, selection, ncv);
      if |args.select| == 0 || nev < 0 || resid.Length == 0 {
        return Panic("index out of range");
      }
      iparam, info := reply.iparam, reply.info;
      var k := iparam[4];
      if k < 0 {
        return Panic("makeslice: len out of range");
      }
      if k > nev + 1 {
        return Panic("index out of range");
      }
      var values := Values(reply.dr[..k], reply.di[..k]);
      MulLe(k, ncv, n);
      var vectors := UnpackVectors(ArpackColumns(reply.z, n, k), reply.di[..k], n);
      if vectors.Panic? {
        return Panic(vectors.message);
      }
      r := Ok(Eigenpairs(values, vectors.value));
    }

    /** iterateInfo: the info code and its description. */
    method IterateInfo() returns (code: int, description: string)
      ensures code == info && (description != "" <==> info in IterateCodes)
      ensures info in IterateCodes ==> description == IterateInfoDescription[info]
    {
      IterateDescribed(info);
      code, description := info, Describe(IterateInfoDescription, info);
    }

    /** extractInfo: the info code and its description. */
    method ExtractInfo() returns (code: int, description: string)
      ensures code == info && (description != "" <==> info in ExtractCodes)
      ensures info in ExtractCodes ==> description == ExtractInfoDescription[info]
    {
      ExtractDescribed(info);
      code, description := info, Describe(ExtractInfoDescription, info);
    }
  }

  /**
   * newArnoldiD: validation, then the starting vector (info 0 and n zeros
   * for a nil v0, info 1 and v0 itself, shared, otherwise) and the
   * workspace. A negative n, which only the scipy default admits, makes
   * the allocation panic.
   */
  method NewArnoldiD(n: int, nev: int, ncv: int, bmat: string, which: string, tol: real, maxIter: int,
                     v0: Option<array<real>>) returns (r: Result<ArnoldiD>)
    ensures r.Panic? <==> NcvFor(n, nev, ncv).Panic? || n < 0
    ensures r.Ok? ==> (fresh(r.value) && r.value.Valid() && r.value.ncv == NcvFor(n, nev, ncv).value
      && r.value.n == n && r.value.nev == nev && r.value.ido == 0
      && r.value.iparam == [1, 0, maxIter, 1, 0, 0, 1, 0, 0, 0, 0] && r.value.ipntr == seq(14, k => 0))
    ensures r.Ok? && v0.None? ==> (r.value.info == 0 && fresh(r.value.resid) && r.value.resid[..] == seq(n, k => 0.0))
    ensures r.Ok? && v0.Some? ==> r.value.info == 1 && r.value.resid == v0.value
  {
    var checked := NcvFor(n, nev, ncv);
    if checked.Panic? {
      return Panic(checked.message);
    }
    if n < 0 {
      return Panic("makeslice: len out of range");
    }
    var resid: array<real>;
    var info: int;
    if v0.None? {
      info := 0;
      resid := new real[n](k => 0.0);
    } else {
      info := 1;
      resid := v0.value;
    }
    var arn := new ArnoldiD(n, nev, checked.value, bmat, which, tol, maxIter, resid, info);
    r := Ok(arn);
  }
}
