/**
 * The ordering and row selection of quickdisp/plotdisp.go: argSort sorts a
 * float slice in place and applies every swap to an index slice as well, so
 * that idx[p] is the original position of the value now at p; DispImageDat
 * writes one row per frequency that the positive-frequency filter lets through.
 */
module PlotDisp {

  /** A prefix of s is in non-decreasing order. */
  ghost predicate SortedUpTo(s: seq<real>, n: nat)
    requires n <= |s|
  {
    forall a, b :: 0 <= a < b < n ==> s[a] <= s[b]
  }

  /** idx holds distinct positions below n: a permutation of 0 .. n-1. */
  ghost predicate Permutation(idx: seq<int>, n: nat)
  {
    |idx| == n && (forall p :: 0 <= p < n ==> 0 <= idx[p] < n)
    && forall p, q :: 0 <= p < q < n ==> idx[p] != idx[q]
  }

  /**
   * argSort: the embedded Float64Slice is the caller's slice itself, so
   * values aliases it; original is what it held when the argSort was made.
   */
  class ArgSort {
    const values: array<real>
    const idx: array<int>
    ghost const original: seq<real>

    /** idx is a permutation, and the value at p came from position idx[p]. */
    ghost predicate Valid()
      reads this, values, idx
    {
      values.Length == idx.Length && |original| == values.Length
      && Permutation(idx[..], idx.Length)
      && forall p :: 0 <= p < idx.Length ==> values[p] == original[idx[p]]
    }

    /** newArgSort: values is arr, not a copy, and idx is the identity. */
    constructor (arr: array<real>)
      ensures values == arr && fresh(idx) && original == arr[..]
      ensures idx.Length == arr.Length && forall p :: 0 <= p < idx.Length ==> idx[p] == p
      ensures Valid()
    {
      values := arr;
      original := arr[..];
      var ix := new int[arr.Length];
      var i := 0;
      while i < ix.Length
        invariant 0 <= i <= ix.Length && forall p :: 0 <= p < i ==> ix[p] == p
      {
        ix[i] := i;
        i := i + 1;
      }
      idx := ix;
    }

    /** Swap: the values and the idx entries at i and j are exchanged together. */
    method Swap(i: int, j: int)
      requires Valid() && 0 <= i < values.Length && 0 <= j < values.Length
      modifies values, idx
      ensures values[..] == old(values[..])[i := old(values[j])][j := old(values[i])]
      ensures idx[..] == old(idx[..])[i := old(idx[j])][j := old(idx[i])]
      ensures Valid()
    {
      values[i], values[j] := values[j], values[i];
      idx[i], idx[j] := idx[j], idx[i];
    }

    /**
     * sort.Sort over Less and Swap, here as a selection sort: each pass
     * swaps the least remaining value into place. Afterwards the values are
     * in order, and the value at p is the original value at idx[p].
     */
    method Sort()
      requires Valid()
      modifies values, idx
      ensures Valid() && SortedUpTo(values[..], values.Length)
    {
      var n := values.Length;
      var i := 0;
      while i < n
        invariant 0 <= i <= n && Valid()
        invariant SortedUpTo(values[..], i)
        invariant forall a, b :: 0 <= a < i <= b < n ==> values[a] <= values[b]
      {
        var m := LeastFrom(i);
        Swap(i, m);
        i := i + 1;
      }
    }

    /** The position of a least value among positions i .. n-1 (the Less calls of a pass). */
    method LeastFrom(i: nat) returns (m: nat)
      requires i < values.Length
      ensures i <= m < values.Length && forall b :: i <= b < values.Length ==> values[m] <= values[b]
    {
      m := i;
      var b := i + 1;
      while b < values.Length
        invariant i <= m < b <= values.Length && forall t :: i <= t < b ==> values[m] <= values[t]
      {
        if values[b] < values[m] {
          m := b;
        }
        b := b + 1;
      }
    }
  }

  /**
   * The kmag ordering of DispImageDat: kmag itself is sorted, so kmag[i]
   * read afterwards is the i-th smallest value, the one of wave vector kOrder[i].
   */
  method OrderInPlace(kmag: array<real>) returns (kas: ArgSort)
    modifies kmag
    ensures kas.values == kmag && kas.Valid() && kas.original == old(kmag[..])
    ensures SortedUpTo(kmag[..], kmag.Length)
    ensures forall i :: 0 <= i < kmag.Length ==> 0 <= kas.idx[i] < kmag.Length && kmag[i] == old(kmag[..])[kas.idx[i]]
  {
    kas := new ArgSort(kmag);
    kas.Sort();
  }

  /**
   * The frequency ordering: frequencies are copied first, so the caller's
   * slice keeps its order and fOrder[j] is the original position of fcop[j].
   */
  method OrderCopy(frequencies: array<real>) returns (fas: ArgSort)
    ensures fresh(fas.values) && frequencies[..] == old(frequencies[..])
    ensures fas.Valid() && fas.original == frequencies[..]
    ensures SortedUpTo(fas.values[..], fas.values.Length)
    ensures forall j :: 0 <= j < fas.values.Length ==>
      0 <= fas.idx[j] < frequencies.Length && fas.values[j] == frequencies[fas.idx[j]]
  {
    var fcop := new real[frequencies.Length];
    var i := 0;
    while i < fcop.Length
      invariant 0 <= i <= fcop.Length && forall p :: 0 <= p < i ==> fcop[p] == frequencies[p]
    {
      fcop[i] := frequencies[i];
      i := i + 1;
    }
    assert fcop[..] == frequencies[..];
    fas := new ArgSort(fcop);
    fas.Sort();
  }

  /** One row of the output: wave-vector magnitude, frequency and the positions it came from. */
  datatype Row = Row(k: real, f: real, kidx: int, fidx: int)

  /** A frequency is written unless only positive frequencies are plotted and it is negative. */
  predicate Written(onlyPositive: bool, f: real)
  {
    !(onlyPositive && f < 0.0)
  }

  /** The rows for one wave vector: the sorted frequencies j that pass the filter, in order. */
  function RowsFor(k: real, kidx: int, fcop: seq<real>, fOrder: seq<int>, onlyPositive: bool): (rows: seq<Row>)
    requires |fOrder| == |fcop|
    ensures |rows| <= |fcop|
    ensures forall r :: 0 <= r < |rows| ==> Written(onlyPositive, rows[r].f) && rows[r].k == k && rows[r].kidx == kidx
    ensures onlyPositive ==> forall r :: 0 <= r < |rows| ==> rows[r].f >= 0.0
    ensures !onlyPositive ==> |rows| == |fcop|
  {
    if |fcop| == 0 then []
    else
      var n := |fcop| - 1;
      RowsFor(k, kidx, fcop[..n], fOrder[..n], onlyPositive)
        + (if Written(onlyPositive, fcop[n]) then [Row(k, fcop[n], kidx, fOrder[n])] else [])
  }

  /** Every sorted frequency j that the filter lets through has its row. */
  lemma {:induction false} RowsForComplete(k: real, kidx: int, fcop: seq<real>, fOrder: seq<int>, onlyPositive: bool, j: nat)
    requires |fOrder| == |fcop| && j < |fcop| && Written(onlyPositive, fcop[j])
    ensures Row(k, fcop[j], kidx, fOrder[j]) in RowsFor(k, kidx, fcop, fOrder, onlyPositive)
  {
    var n := |fcop| - 1;
    if j < n {
      RowsForComplete(k, kidx, fcop[..n], fOrder[..n], onlyPositive, j);
    }
  }

  /**
   * The inner loop of DispImageDat for one wave vector: the rows written,
   * in the order of the sorted frequencies.
   */
  method WriteRows(k: real, kidx: int, fcop: seq<real>, fOrder: seq<int>, onlyPositive: bool) returns (rows: seq<Row>)
    requires |fOrder| == |fcop|
    ensures rows == RowsFor(k, kidx, fcop, fOrder, onlyPositive)
  {
    rows := [];
    var j := 0;
    while j < |fcop|
      invariant 0 <= j <= |fcop|
      invariant rows == RowsFor(k, kidx, fcop[..j], fOrder[..j], onlyPositive)
    {
      var f := fcop[j];
      assert fcop[..j + 1][..j] == fcop[..j] && fOrder[..j + 1][..j] == fOrder[..j];
      if Written(onlyPositive, f) {
        rows := rows + [Row(k, f, kidx, fOrder[j])];
      }
      j := j + 1;
    }
    assert fcop[..|fcop|] == fcop && fOrder[..|fOrder|] == fOrder;
  }
}
