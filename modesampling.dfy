/**
 * The integer sampling of wave-vector indices in quickdisp/modesampling.go:
 * the Cartesian expansion of per-axis points, the full set of modes of a
 * mesh, the clamped sampling of ModeSample, minElem/maxElem and the mirror
 * step of AlongDirection. The float walk of AlongDirection and the floor
 * that turns wave numbers into indices are not part of this model: pStart,
 * pStop and the walked points are inputs.
 */
module ModeSampling {
  import opened Arith
  import opened Grid
  import opened Wrappers

  /** One []int32 per axis x, y, z. */
  datatype Axes = Axes(x: seq<int>, y: seq<int>, z: seq<int>)

  // ---------------------------------------------------------------------
  // ExpandPoints and AllModes.

  /** The mesh Sx x Sy x Sz spanned by the per-axis points. */
  function SampleGrid(d: Axes): Size
  {
    Size(|d.x|, |d.y|, |d.z|)
  }

  /** s holds, at the x,y,z-ordered index of each cell (i, j, k) of the sample grid, the point (dx[i], dy[j], dz[k]). */
  ghost predicate Expansion(d: Axes, s: Axes)
  {
    var sz := SampleGrid(d);
    |s.x| == sz.Cells() && |s.y| == sz.Cells() && |s.z| == sz.Cells()
    && forall c :: InGrid(sz, c) ==>
      (var p := CellIndex(XYZ, sz, c); s.x[p] == d.x[c.i] && s.y[p] == d.y[c.j] && s.z[p] == d.z[c.k])
  }

  /**
   * ExpandPoints: every combination (dx[i], dy[j], dz[k]) at position
   * (Sy*i + j)*Sz + k, the x,y,z-ordered cell index. The i, j, k loops visit
   * the positions in increasing order, one at a time.
   */
  method ExpandPoints(d: Axes) returns (s: Axes)
    ensures Expansion(d, s)
    ensures |s.x| == 0 <==> |d.x| == 0 || |d.y| == 0 || |d.z| == 0
  {
    var sz := SampleGrid(d);
    var n := sz.Cells();
    var xs, ys, zs := [], [], [];
    var r := 0;
    while r < n
      invariant 0 <= r <= n && |xs| == r && |ys| == r && |zs| == r
      invariant forall t :: 0 <= t < r ==>
        (var c := CellAt(XYZ, sz, t); xs[t] == d.x[c.i] && ys[t] == d.y[c.j] && zs[t] == d.z[c.k])
    {
      var c := CellAt(XYZ, sz, r);
      xs, ys, zs := xs + [d.x[c.i]], ys + [d.y[c.j]], zs + [d.z[c.k]];
      r := r + 1;
    }
    s := Axes(xs, ys, zs);
    CellsPositive(sz);
    forall c | InGrid(sz, c)
      ensures (var p := CellIndex(XYZ, sz, c); s.x[p] == d.x[c.i] && s.y[p] == d.y[c.j] && s.z[p] == d.z[c.k])
    {
      CellAtIndex(XYZ, sz, c);
    }
  }

  /** Each combination appears exactly once: distinct cells of the sample grid expand to distinct positions. */
  lemma {:induction false} ExpansionOnce(d: Axes, c: Cell, c': Cell)
    requires InGrid(SampleGrid(d), c) && InGrid(SampleGrid(d), c')
    ensures CellIndex(XYZ, SampleGrid(d), c) == CellIndex(XYZ, SampleGrid(d), c') ==> c == c'
  {
    if CellIndex(XYZ, SampleGrid(d), c) == CellIndex(XYZ, SampleGrid(d), c') {
      CellIndexInjective(XYZ, SampleGrid(d), c, c');
    }
  }

  /** The lowest index AllModes gives an axis of n cells: -n/2 for even n, -(n-1)/2 for odd n. */
  function LowestMode(n: nat): (l: int)
    ensures l == -(n / 2)
  {
    if n % 2 == 0 then -(n / 2) else -((n - 1) / 2)
  }

  /** The loop of AllModes for one axis: the run of n consecutive indices from LowestMode(n). */
  method AxisModes(n: nat) returns (d: seq<int>)
    ensures |d| == n && forall i :: 0 <= i < n ==> d[i] == LowestMode(n) + i
    ensures n > 0 ==> d[0] == (if n % 2 == 0 then -(n / 2) else -((n - 1) / 2))
    ensures n > 0 ==> d[n - 1] == (if n % 2 == 0 then n / 2 - 1 else (n - 1) / 2)
    ensures n > 0 ==> d[n / 2] == 0
    ensures n % 2 == 1 ==> forall i :: 0 <= i < n ==> d[n - 1 - i] == -d[i]
  {
    var lim := LowestMode(n);
    d := [];
    var i := 0;
    while i < n
      invariant 0 <= i <= n && |d| == i && forall t :: 0 <= t < i ==> d[t] == lim + t
    {
      d := d + [i + lim];
      i := i + 1;
    }
  }

  /** AllModes for a mesh of the given size: the expansion of every admissible index on each axis. */
  method AllModes(size: Size) returns (s: Axes)
    ensures |s.x| == size.Cells() && |s.y| == size.Cells() && |s.z| == size.Cells()
    ensures forall c :: InGrid(size, c) ==>
      (var p := CellIndex(XYZ, size, c);
       s.x[p] == LowestMode(size.nx) + c.i && s.y[p] == LowestMode(size.ny) + c.j && s.z[p] == LowestMode(size.nz) + c.k)
  {
    var dx := AxisModes(size.nx);
    var dy := AxisModes(size.ny);
    var dz := AxisModes(size.nz);
    assert SampleGrid(Axes(dx, dy, dz)) == size;
    s := ExpandPoints(Axes(dx, dy, dz));
  }

  // ---------------------------------------------------------------------
  // ModeSample for one axis.

  /** An inclusive range of mode indices. */
  datatype Range = Range(start: int, stop: int)
  {
    function Count(): int { stop - start + 1 }
  }

  /**
   * The clamping of ModeSample for an axis of n cells. Odd n: into
   * [-(n-1)/2, (n-1)/2]. Even n: pStart is raised to -n/2, and pStop is
   * lowered to n/2 - 1 when pStart was clamped and to n/2 otherwise, so the
   * aliased extremes -n/2 and n/2 are never both in the range.
   */
  function Clamp(n: nat, pStart: int, pStop: int): (w: Range)
    ensures n % 2 == 1 ==> w.start == Max(pStart, -((n - 1) / 2)) && w.stop == Min(pStop, (n - 1) / 2)
    ensures n % 2 == 0 ==> w.start == Max(pStart, -(n / 2))
    ensures n % 2 == 0 && pStart <= -(n / 2) ==> w.stop == Min(pStop, n / 2 - 1)
    ensures n % 2 == 0 && pStart > -(n / 2) ==> w.stop == Min(pStop, n / 2)
    ensures n % 2 == 0 ==> !(w.start == -(n / 2) && w.stop == n / 2)
  {
    if n % 2 == 0 then
      var limn := -(n / 2);
      var hasExtreme := pStart <= limn;
      var start := if hasExtreme then limn else pStart;
      var limp := n / 2 - 1;
      var stop := if pStop > limp then (if hasExtreme then limp else limp + 1) else pStop;
      Range(start, stop)
    else
      var limn := -((n - 1) / 2);
      var limp := (n - 1) / 2;
      Range(if pStart < limn then limn else pStart, if pStop > limp then limp else pStop)
  }

  function Min(a: int, b: int): int { if a <= b then a else b }
  function Max(a: int, b: int): int { if a >= b then a else b }

  /** float64(i) * step, floored, for step = (maxPoints-1)/(nPoints-1). */
  function Spread(i: nat, maxPoints: int, nPoints: int): int
    requires nPoints > 1
  {
    (i as real * ((maxPoints - 1) as real / (nPoints - 1) as real)).Floor
  }

  /**
   * The sampling of ModeSample as written, after clamping to w. An empty
   * range leaves the axis empty. More points than the range holds gives
   * maxPoints entries, but the fill runs from pStop up to pStart, so it
   * writes only for a one-point range and leaves zeros otherwise. One
   * point gives floor(maxPoints/2), and otherwise floor(i*step) is used
   * with the last entry pStop; neither adds pStart. nPoints below one makes
   * make or the final store panic.
   */
  method SampleAsWritten(w: Range, nPoints: int) returns (r: Result<seq<int>>)
    ensures w.stop < w.start ==> r == Ok([])
    ensures w.start <= w.stop ==> (r.Panic? <==> nPoints < 1)
    ensures w.start <= w.stop && nPoints > w.Count() ==>
      r == Ok(if w.start == w.stop then [w.stop] else seq(w.Count(), k => 0))
    ensures w.start <= w.stop && nPoints == 1 <= w.Count() ==> r == Ok([w.Count() / 2])
    ensures w.start <= w.stop && 1 < nPoints <= w.Count() ==> (r.Ok? && |r.value| == nPoints
      && r.value[0] == 0 && r.value[nPoints - 1] == w.stop
      && forall i :: 0 <= i < nPoints - 1 ==> r.value[i] == Spread(i, w.Count(), nPoints))
  {
    if w.stop < w.start {
      return Ok([]);
    }
    var maxPoints := w.stop - w.start + 1;
    if nPoints > maxPoints {
      var a := new int[maxPoints](k => 0);
      var i := w.stop;
      while i <= w.start
        invariant w.stop <= i && (i > w.stop ==> i == w.stop + 1 && w.start == w.stop)
        invariant forall t :: 0 <= t < maxPoints ==> a[t] == (if t == 0 && i > w.stop then w.stop else 0)
        decreases w.start + 1 - i
      {
        a[i - w.stop] := i;
        i := i + 1;
      }
      assert a[..] == if w.start == w.stop then [w.stop] else seq(maxPoints, k => 0);
      r := Ok(a[..]);
    } else if nPoints == 1 {
      r := Ok([maxPoints / 2]);
    } else if nPoints < 1 {
      r := Panic("index out of range");
    } else {
      var a := new int[nPoints](k => 0);
      var i := 0;
      while i < nPoints - 1
        invariant 0 <= i <= nPoints - 1
        invariant forall t :: 0 <= t < i ==> a[t] == Spread(t, maxPoints, nPoints)
      {
        a[i] := Spread(i, maxPoints, nPoints);
        i := i + 1;
      }
      a[nPoints - 1] := w.stop;
      assert Spread(0, maxPoints, nPoints) == 0;
      r := Ok(a[..]);
    }
  }

  /** With at least two points spread over at least as many indices, the step is at least one. */
  lemma {:induction false} SpreadStep(i: nat, maxPoints: int, nPoints: int)
    requires 1 < nPoints <= maxPoints && i + 1 < nPoints
    ensures 0 <= Spread(i, maxPoints, nPoints) < Spread(i + 1, maxPoints, nPoints)
  {
    var step := (maxPoints - 1) as real / (nPoints - 1) as real;
    assert step * (nPoints - 1) as real == (maxPoints - 1) as real;
    assert step >= 1.0;
    assert (i + 1) as real * step == i as real * step + step;
  }

  /** Every spread point but the last lies below maxPoints - 1. */
  lemma {:induction false} SpreadBelow(i: nat, maxPoints: int, nPoints: int)
    requires 1 < nPoints <= maxPoints && i < nPoints - 1
    ensures 0 <= Spread(i, maxPoints, nPoints) < maxPoints - 1
  {
    var step := (maxPoints - 1) as real / (nPoints - 1) as real;
    assert step * (nPoints - 1) as real == (maxPoints - 1) as real;
    assert step > 0.0;
    assert i as real * step < (nPoints - 1) as real * step;
  }

  /** The entries are strictly increasing and lie in the range. */
  ghost predicate SampledFrom(s: seq<int>, w: Range)
  {
    (forall i :: 0 <= i < |s| ==> w.start <= s[i] <= w.stop)
    && forall i, j :: 0 <= i < j < |s| ==> s[i] < s[j]
  }

  /** Every index of a non-empty range, in order. */
  function WholeRange(w: Range): (s: seq<int>)
    requires w.start <= w.stop
  {
    seq(w.Count(), k => w.start + k)
  }

  /** nPoints points pStart + floor(i*step), the last one pStop. */
  function SpreadPoints(w: Range, nPoints: int): (s: seq<int>)
    requires 1 < nPoints <= w.Count()
  {
    seq(nPoints, i requires 0 <= i < nPoints => if i < nPoints - 1 then w.start + Spread(i, w.Count(), nPoints) else w.stop)
  }

  /**
   * The sampling as meant: the whole range when it holds fewer points than
   * asked for, its midpoint pStart + floor(maxPoints/2) for one point, and
   * otherwise pStart + floor(i*step) ending on pStop.
   */
  function SampleOf(w: Range, nPoints: int): Result<seq<int>>
  {
    if w.stop < w.start then Ok([])
    else if nPoints > w.Count() then Ok(WholeRange(w))
    else if nPoints == 1 then Ok([w.start + w.Count() / 2])
    else if nPoints < 1 then Panic("index out of range")
    else Ok(SpreadPoints(w, nPoints))
  }

  /** The spread points are strictly increasing and lie in the range. */
  lemma {:induction false} SpreadSampled(w: Range, nPoints: int)
    requires 1 < nPoints <= w.Count()
    ensures SampledFrom(SpreadPoints(w, nPoints), w)
  {
    var s := SpreadPoints(w, nPoints);
    forall i, j | 0 <= i < j < nPoints
      ensures s[i] < s[j]
    {
      SpreadIncreasing(i, j, w.Count(), nPoints);
    }
    forall i | 0 <= i < nPoints - 1
      ensures w.start <= s[i] <= w.stop
    {
      SpreadBelow(i, w.Count(), nPoints);
    }
  }

  /** The upward fill loop over the whole range. */
  method FillRange(w: Range) returns (s: seq<int>)
    requires w.start <= w.stop
    ensures s == WholeRange(w)
  {
    var a := new int[w.Count()](k => 0);
    var i := w.start;
    while i <= w.stop
      invariant w.start <= i <= w.stop + 1
      invariant forall t :: 0 <= t < i - w.start ==> a[t] == w.start + t
      decreases w.stop + 1 - i
    {
      a[i - w.start] := i;
      i := i + 1;
    }
    s := a[..];
  }

  /** The fill loop of the spread points, then the final store of pStop. */
  method FillSpread(w: Range, nPoints: int) returns (s: seq<int>)
    requires 1 < nPoints <= w.Count()
    ensures s == SpreadPoints(w, nPoints)
  {
    var maxPoints := w.stop - w.start + 1;
    var a := new int[nPoints](k => 0);
    var i := 0;
    while i < nPoints - 1
      invariant 0 <= i <= nPoints - 1
      invariant forall t :: 0 <= t < i ==> a[t] == w.start + Spread(t, maxPoints, nPoints)
    {
      a[i] := w.start + Spread(i, maxPoints, nPoints);
      i := i + 1;
    }
    a[nPoints - 1] := w.stop;
    s := a[..];
  }

  /** The loops of ModeSample for one axis compute SampleOf, whose points are increasing and in range. */
  method Sample(w: Range, nPoints: int) returns (r: Result<seq<int>>)
    ensures r == SampleOf(w, nPoints)
    ensures w.stop < w.start ==> r == Ok([])
    ensures w.start <= w.stop ==> (r.Panic? <==> nPoints < 1)
    ensures r.Ok? ==> SampledFrom(r.value, w)
    ensures w.start <= w.stop && nPoints >= 1 ==> r.Ok? && |r.value| == Min(nPoints, w.Count())
    ensures w.start <= w.stop && nPoints > w.Count() ==> r == Ok(seq(w.Count(), k => w.start + k))
  {
    if w.stop < w.start {
      return Ok([]);
    }
    var maxPoints := w.stop - w.start + 1;
    if nPoints > maxPoints {
      var s := FillRange(w);
      r := Ok(s);
    } else if nPoints == 1 {
      r := Ok([w.start + maxPoints / 2]);
    } else if nPoints < 1 {
      r := Panic("index out of range");
    } else {
      var s := FillSpread(w, nPoints);
      SpreadSampled(w, nPoints);
      r := Ok(s);
    }
  }

  /** Spread is strictly increasing, and every spread point lies below the last index. */
  lemma {:induction false} SpreadIncreasing(i: nat, j: nat, maxPoints: int, nPoints: int)
    requires 1 < nPoints <= maxPoints && i < j < nPoints
    ensures j < nPoints - 1 ==> Spread(i, maxPoints, nPoints) < Spread(j, maxPoints, nPoints)
    ensures j == nPoints - 1 ==> Spread(i, maxPoints, nPoints) < maxPoints - 1
    decreases j - i
  {
    if j == nPoints - 1 {
      SpreadBelow(i, maxPoints, nPoints);
    } else if j == i + 1 {
      SpreadStep(i, maxPoints, nPoints);
    } else {
      SpreadIncreasing(i, j - 1, maxPoints, nPoints);
      SpreadStep(j - 1, maxPoints, nPoints);
    }
  }

  /** The clamped range of axis a (0 for x, 1 for y, 2 for z). */
  function AxisRange(size: Size, pStart: seq<int>, pStop: seq<int>, a: nat): Range
    requires |pStart| == 3 && |pStop| == 3 && a < 3
  {
    Clamp(if a == 0 then size.nx else if a == 1 then size.ny else size.nz, pStart[a], pStop[a])
  }

  /** The per-axis points ModeSample expands when no axis panics. */
  function AxisSamples(size: Size, pStart: seq<int>, pStop: seq<int>, nPoints: seq<int>): Axes
    requires |pStart| == 3 && |pStop| == 3 && |nPoints| == 3
    requires forall a :: 0 <= a < 3 ==> SampleOf(AxisRange(size, pStart, pStop, a), nPoints[a]).Ok?
  {
    Axes(SampleOf(AxisRange(size, pStart, pStop, 0), nPoints[0]).value,
         SampleOf(AxisRange(size, pStart, pStop, 1), nPoints[1]).value,
         SampleOf(AxisRange(size, pStart, pStop, 2), nPoints[2]).value)
  }

  /**
   * ModeSample with the clamping on each axis and the corrected sampling. It
   * panics exactly when one axis sampling does, which is an axis with a
   * non-empty range and fewer than one point; otherwise it is the expansion
   * of the three samples, each increasing and inside its clamped range. An
   * axis with an empty range contributes no points, so the expansion is
   * empty too.
   */
  method ModeSample(size: Size, pStart: seq<int>, pStop: seq<int>, nPoints: seq<int>) returns (r: Result<Axes>)
    requires |pStart| == 3 && |pStop| == 3 && |nPoints| == 3
    ensures r.Panic? <==> exists a :: 0 <= a < 3 && SampleOf(AxisRange(size, pStart, pStop, a), nPoints[a]).Panic?
    ensures r.Panic? <==> exists a :: (0 <= a < 3 &&
      AxisRange(size, pStart, pStop, a).start <= AxisRange(size, pStart, pStop, a).stop && nPoints[a] < 1)
    ensures r.Ok? ==> (
      var d := AxisSamples(size, pStart, pStop, nPoints);
      SampledFrom(d.x, AxisRange(size, pStart, pStop, 0)) && SampledFrom(d.y, AxisRange(size, pStart, pStop, 1))
      && SampledFrom(d.z, AxisRange(size, pStart, pStop, 2)) && Expansion(d, r.value))
  {
    var sx := Sample(Clamp(size.nx, pStart[0], pStop[0]), nPoints[0]);
    if sx.Panic? {
      return Panic(sx.message);
    }
    var sy := Sample(Clamp(size.ny, pStart[1], pStop[1]), nPoints[1]);
    if sy.Panic? {
      return Panic(sy.message);
    }
    var sz := Sample(Clamp(size.nz, pStart[2], pStop[2]), nPoints[2]);
    if sz.Panic? {
      return Panic(sz.message);
    }
    var d := Axes(sx.value, sy.value, sz.value);
    var s := ExpandPoints(d);
    r := Ok(s);
    assert Expansion(d, r.value);
  }

  // ---------------------------------------------------------------------
  // minElem, maxElem and the mirror of AlongDirection.

  /** minElem: an index of a least element, the lowest such index. */
  function MinElem(a: seq<real>): (r: nat)
    requires |a| == 3
    ensures r < 3 && (forall t :: 0 <= t < 3 ==> a[r] <= a[t]) && forall t :: 0 <= t < r ==> a[t] > a[r]
  {
    if a[0] <= a[1] && a[0] <= a[2] then 0 else if a[1] <= a[2] then 1 else 2
  }

  /** maxElem: an index of a greatest element, the lowest such index. */
  function MaxElem(a: seq<real>): (r: nat)
    requires |a| == 3
    ensures r < 3 && (forall t :: 0 <= t < 3 ==> a[r] >= a[t]) && forall t :: 0 <= t < r ==> a[t] < a[r]
  {
    if a[0] >= a[1] && a[0] >= a[2] then 0 else if a[1] >= a[2] then 1 else 2
  }

  /**
   * The negative half of AlongDirection for one axis: for n = len(pks[0]),
   * 2n-1 entries with ks[i] = pks[i] for i < n and ks[2n-1-i] = -pks[i] for
   * 1 <= i < n. make panics when n is zero and the reads when p is shorter.
   */
  method Mirror(p: seq<int>, n: nat) returns (r: Result<seq<int>>)
    ensures r.Panic? <==> n == 0 || |p| < n
    ensures r.Ok? ==> (|r.value| == 2 * n - 1
      && (forall t :: 0 <= t < n ==> r.value[t] == p[t])
      && (forall t :: n <= t < 2 * n - 1 ==> r.value[t] == -p[2 * n - 1 - t])
      && forall t :: 1 <= t < n ==> r.value[2 * n - 1 - t] == -r.value[t])
  {
    if n == 0 || |p| == 0 {
      return Panic("index out of range");
    }
    var a := new int[2 * n - 1](k => 0);
    a[0] := p[0];
    var i := 1;
    while i < n
      invariant 1 <= i <= n && i <= |p| && a.Length == 2 * n - 1
      invariant forall t :: 0 <= t < i ==> a[t] == p[t]
      invariant forall t :: 2 * n - i <= t < 2 * n - 1 ==> a[t] == -p[2 * n - 1 - t]
    {
      if i >= |p| {
        return Panic("index out of range");
      }
      a[i] := p[i];
      a[2 * n - 1 - i] := -p[i];
      i := i + 1;
    }
    r := Ok(a[..]);
  }

  /** Each axis of ks is the mirror of the first n = len(pks.x) entries of that axis of pks. */
  ghost predicate Mirrored(pks: Axes, ks: Axes)
  {
    var n := |pks.x|;
    n <= |pks.y| && n <= |pks.z|
    && |ks.x| == 2 * n - 1 && |ks.y| == 2 * n - 1 && |ks.z| == 2 * n - 1
    && ks.x[..n] == pks.x && ks.y[..n] == pks.y[..n] && ks.z[..n] == pks.z[..n]
    && forall t :: 1 <= t < n ==>
      (ks.x[2 * n - 1 - t] == -pks.x[t] && ks.y[2 * n - 1 - t] == -pks.y[t] && ks.z[2 * n - 1 - t] == -pks.z[t])
  }

  /** The mirror on all three axes, with n the length of the x points. */
  method AlongDirectionMirror(pks: Axes) returns (r: Result<Axes>)
    ensures r.Panic? <==> |pks.x| == 0 || |pks.y| < |pks.x| || |pks.z| < |pks.x|
    ensures r.Ok? ==> Mirrored(pks, r.value)
  {
    var n := |pks.x|;
    var kx := Mirror(pks.x, n);
    if kx.Panic? {
      return Panic(kx.message);
    }
    var ky := Mirror(pks.y, n);
    if ky.Panic? {
      return Panic(ky.message);
    }
    var kz := Mirror(pks.z, n);
    if kz.Panic? {
      return Panic(kz.message);
    }
    r := Ok(Axes(kx.value, ky.value, kz.value));
  }
}
