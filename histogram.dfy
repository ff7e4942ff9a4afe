/**
 * The histogram kernel the binning code calls (`numba_histogramdd` or
 * `numpy.histogramdd`), stated as a specification: each event lands in the
 * cell whose edges bracket it along every axis, the rightmost edge of each axis
 * belongs to the last bin, and events outside the edges are dropped. The cells
 * are laid out row-major (the first axis varies slowest).
 */
module Histogram {
  import opened Wrappers

  /** numpy's "monotonically increasing" edges: never decreasing. */
  predicate Monotone(e: seq<real>)
  {
    forall i, j :: 0 <= i < j < |e| ==> e[i] <= e[j]
  }

  predicate AllMonotone(edges: seq<seq<real>>)
  {
    forall k :: 0 <= k < |edges| ==> Monotone(edges[k])
  }

  /** The number of bins `n + 1` edges delimit. */
  function Cells(e: seq<real>): nat
  {
    if |e| == 0 then 0 else |e| - 1
  }

  /** The shape of the histogram over these edges: one bin count per axis. */
  function CellShape(edges: seq<seq<real>>): (s: seq<nat>)
    ensures |s| == |edges| && forall k :: 0 <= k < |edges| ==> s[k] == Cells(edges[k])
  {
    seq(|edges|, k requires 0 <= k < |edges| => Cells(edges[k]))
  }

  /** The number of cells of an array of this shape. */
  function Size(shape: seq<nat>): nat
  {
    if |shape| == 0 then 1 else shape[0] * Size(shape[1..])
  }

  /**
   * The bin of `v` along one axis: the last edge at or below `v` starts it,
   * except that the rightmost edge closes the last bin.
   */
  function BinIndex(v: real, e: seq<real>): (r: Option<nat>)
    requires Monotone(e)
    ensures r.None? <==> |e| < 2 || v < e[0] || e[|e| - 1] < v
    ensures r.Some? ==> r.value < Cells(e) && e[r.value] <= v <= e[r.value + 1]
    ensures r.Some? ==> v < e[r.value + 1] || r.value == Cells(e) - 1
  {
    if |e| < 2 || v < e[0] || e[|e| - 1] < v then None
    else Some(Locate(v, e, |e| - 2))
  }

  /** The last index `j <= i` whose edge is at or below `v`. */
  function Locate(v: real, e: seq<real>, i: nat): (j: nat)
    requires Monotone(e) && i + 1 < |e| && e[0] <= v && v <= e[|e| - 1]
    requires i + 2 == |e| || v < e[i + 1]
    ensures j <= i && e[j] <= v && (v < e[j + 1] || j + 2 == |e|)
    decreases i
  {
    if e[i] <= v || i == 0 then i else Locate(v, e, i - 1)
  }

  /** The rightmost edge is counted, in the last bin. */
  lemma {:induction false} RightEdgeInLastBin(e: seq<real>)
    requires Monotone(e) && |e| >= 2
    ensures BinIndex(e[|e| - 1], e) == Some(|e| - 2)
  {
  }

  /** The bin along each axis is the only one that brackets the value, for strictly increasing edges. */
  lemma {:induction false} BinIndexUnique(v: real, e: seq<real>, i: nat)
    requires Monotone(e) && (forall a, b :: 0 <= a < b < |e| ==> e[a] < e[b])
    requires i + 1 < |e| && e[i] <= v && (v < e[i + 1] || (i + 2 == |e| && v == e[i + 1]))
    ensures BinIndex(v, e) == Some(i)
  {
  }

  lemma {:induction false} MulMono(a: nat, b: nat, s: nat)
    requires a < b
    ensures a * s + s <= b * s
  {
    assert (b - a) * s >= s by {
      assert b - a >= 1;
    }
  }

  /** The row-major cell of an event, or None when it lies outside the edges along some axis. */
  function CellOf(row: seq<real>, edges: seq<seq<real>>): (r: Option<nat>)
    requires |row| == |edges| && AllMonotone(edges)
    ensures r.Some? ==> r.value < Size(CellShape(edges))
    decreases |row|
  {
    if |row| == 0 then Some(0)
    else
      var rest := CellOf(row[1..], edges[1..]);
      match BinIndex(row[0], edges[0])
      case None => None
      case Some(i) =>
        if rest.None? then None
        else
          var s := Size(CellShape(edges[1..]));
          assert CellShape(edges)[1..] == CellShape(edges[1..]);
          MulMono(i, Cells(edges[0]), s);
          Some(i * s + rest.value)
  }

  function Zeros(n: nat): (z: seq<real>)
    ensures |z| == n && forall i :: 0 <= i < n ==> z[i] == 0.0
  {
    seq(n, _ => 0.0)
  }

  /** Elementwise sum of two arrays of the same shape. */
  function Add(a: seq<real>, b: seq<real>): (r: seq<real>)
    requires |a| == |b|
    ensures |r| == |a| && forall i :: 0 <= i < |a| ==> r[i] == a[i] + b[i]
  {
    seq(|a|, i requires 0 <= i < |a| => a[i] + b[i])
  }

  /** The event rows an edge array set can bin: one value per axis. */
  predicate Fits(rows: seq<seq<real>>, edges: seq<seq<real>>)
  {
    forall i :: 0 <= i < |rows| ==> |rows[i]| == |edges|
  }

  /** The event counts per cell: each event adds one to its cell. */
  function Hist(rows: seq<seq<real>>, edges: seq<seq<real>>): (h: seq<real>)
    requires Fits(rows, edges) && AllMonotone(edges)
    ensures |h| == Size(CellShape(edges))
    decreases |rows|
  {
    if |rows| == 0 then Zeros(Size(CellShape(edges)))
    else
      var h := Hist(rows[..|rows| - 1], edges);
      match CellOf(rows[|rows| - 1], edges)
      case None => h
      case Some(c) => h[c := h[c] + 1.0]
  }

  /** The events that fall in cell `c`. */
  function InCell(rows: seq<seq<real>>, edges: seq<seq<real>>, c: nat): set<nat>
    requires Fits(rows, edges) && AllMonotone(edges)
  {
    set i | 0 <= i < |rows| && CellOf(rows[i], edges) == Some(c)
  }

  /** Each cell holds exactly the number of events that fall in it. */
  lemma {:induction false} HistCounts(rows: seq<seq<real>>, edges: seq<seq<real>>, c: nat)
    requires Fits(rows, edges) && AllMonotone(edges) && c < Size(CellShape(edges))
    ensures Hist(rows, edges)[c] == |InCell(rows, edges, c)| as real
    decreases |rows|
  {
    if |rows| > 0 {
      var n := |rows| - 1;
      var init := rows[..n];
      HistCounts(init, edges, c);
      HistStep(rows, edges, c);
      InCellStep(rows, edges, c);
    }
  }

  lemma {:induction false} HistStep(rows: seq<seq<real>>, edges: seq<seq<real>>, c: nat)
    requires Fits(rows, edges) && AllMonotone(edges) && c < Size(CellShape(edges)) && |rows| > 0
    ensures Hist(rows, edges)[c] == Hist(rows[..|rows| - 1], edges)[c]
              + (if CellOf(rows[|rows| - 1], edges) == Some(c) then 1.0 else 0.0)
  {
  }

  lemma {:induction false} InCellStep(rows: seq<seq<real>>, edges: seq<seq<real>>, c: nat)
    requires Fits(rows, edges) && AllMonotone(edges) && |rows| > 0
    ensures |InCell(rows, edges, c)| == |InCell(rows[..|rows| - 1], edges, c)|
              + (if CellOf(rows[|rows| - 1], edges) == Some(c) then 1 else 0)
  {
    var n := |rows| - 1;
    InCellSnoc(rows, edges, c);
    if CellOf(rows[n], edges) == Some(c) {
      CardAddFresh(InCell(rows[..n], edges, c), n);
    }
  }

  /** The events of cell `c` among all rows: those among the earlier rows, plus the last if it falls there. */
  lemma {:induction false} InCellSnoc(rows: seq<seq<real>>, edges: seq<seq<real>>, c: nat)
    requires Fits(rows, edges) && AllMonotone(edges) && |rows| > 0
    ensures |rows| - 1 !in InCell(rows[..|rows| - 1], edges, c)
    ensures InCell(rows, edges, c) == InCell(rows[..|rows| - 1], edges, c)
              + (if CellOf(rows[|rows| - 1], edges) == Some(c) then {|rows| - 1} else {})
  {
    var n := |rows| - 1;
    var init := rows[..n];
    var all := InCell(rows, edges, c);
    var before := InCell(init, edges, c);
    var extra: set<nat> := if CellOf(rows[n], edges) == Some(c) then {n} else {};
    forall i | i in all ensures i in before + extra {
      if i < n {
        assert init[i] == rows[i];
      }
    }
    forall i | i in before + extra ensures i in all {
      if i < n {
        assert init[i] == rows[i];
      }
    }
  }

  lemma {:induction false} CardAddFresh(s: set<nat>, x: nat)
    requires x !in s
    ensures |s + {x}| == |s| + 1
  {
  }

  lemma {:induction false} FitsAppend(a: seq<seq<real>>, b: seq<seq<real>>, edges: seq<seq<real>>)
    requires Fits(a, edges) && Fits(b, edges)
    ensures Fits(a + b, edges)
  {
    forall i | 0 <= i < |a + b| ensures |(a + b)[i]| == |edges| {
      if i >= |a| { assert (a + b)[i] == b[i - |a|]; }
    }
  }

  /** Binning two batches of events and adding the counts is binning them together. */
  lemma {:induction false} HistAppend(a: seq<seq<real>>, b: seq<seq<real>>, edges: seq<seq<real>>)
    requires Fits(a, edges) && Fits(b, edges) && AllMonotone(edges)
    ensures Fits(a + b, edges)
    ensures Hist(a + b, edges) == Add(Hist(a, edges), Hist(b, edges))
  {
    FitsAppend(a, b, edges);
    var h, x, y := Hist(a + b, edges), Hist(a, edges), Hist(b, edges);
    forall c | 0 <= c < |h| ensures h[c] == x[c] + y[c] {
      HistAppendAt(a, b, edges, c);
    }
    Pointwise(h, x, y);
  }

  lemma {:induction false} Pointwise(h: seq<real>, x: seq<real>, y: seq<real>)
    requires |h| == |x| == |y| && forall c :: 0 <= c < |h| ==> h[c] == x[c] + y[c]
    ensures h == Add(x, y)
  {
  }

  /** One cell of `HistAppend`, by induction on the second batch. */
  lemma {:induction false} HistAppendAt(a: seq<seq<real>>, b: seq<seq<real>>, edges: seq<seq<real>>, c: nat)
    requires Fits(a, edges) && Fits(b, edges) && AllMonotone(edges) && c < Size(CellShape(edges))
    ensures Fits(a + b, edges)
    ensures Hist(a + b, edges)[c] == Hist(a, edges)[c] + Hist(b, edges)[c]
    decreases |b|
  {
    FitsAppend(a, b, edges);
    if |b| == 0 {
      assert a + b == a;
    } else {
      var n := |b| - 1;
      var ab := a + b;
      HistAppendAt(a, b[..n], edges, c);
      assert ab[..|ab| - 1] == a + b[..n];
      assert ab[|ab| - 1] == b[n];
      HistStep(ab, edges, c);
      HistStep(b, edges, c);
    }
  }

  /** Some axis has no edges at all (`linspace(lo, hi, 0)` for a bin count of -1). */
  predicate SomeEmpty(edges: seq<seq<real>>)
  {
    exists k :: 0 <= k < |edges| && |edges[k]| == 0
  }

  /**
   * The kernel: the counts over the given edges. ValueError when some edge
   * array decreases (numpy tests every axis first); otherwise IndexError when
   * some edge array is empty, since its last edge is read to find the values
   * on the rightmost edge.
   */
  function Kernel(rows: seq<seq<real>>, edges: seq<seq<real>>): (r: Result<seq<real>>)
    requires Fits(rows, edges)
    ensures r.Err? <==> !AllMonotone(edges) || SomeEmpty(edges)
    ensures !AllMonotone(edges) ==> r == Err(ValueError)
    ensures AllMonotone(edges) && SomeEmpty(edges) ==> r == Err(IndexError)
    ensures r.Ok? ==> |r.value| == Size(CellShape(edges)) && r.value == Hist(rows, edges)
  {
    if !AllMonotone(edges) then Err(ValueError)
    else if SomeEmpty(edges) then Err(IndexError)
    else Ok(Hist(rows, edges))
  }
}
