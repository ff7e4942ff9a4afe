/**
 * sed/binning/binning.py, `bin_dataframe`: the histogram of a whole data frame,
 * computed partition by partition in batches of `n_cores` partitions and
 * combined in one of three modes, or returned per partition along an extra
 * `df_part` axis. The deferred (dask) tasks are modelled as evaluated in
 * partition order; `noise(p)` is the draw the jitter of partition `p` uses.
 */
module BinDataframe {
  import opened Wrappers
  import opened Frames
  import opened Histogram
  import opened Reduction
  import opened Binning
  import BinningUtils

  /** The returned data array: combined counts, or counts per cell and partition. */
  datatype DataArray =
    | Combined(data: seq<real>, dims: seq<string>, coords: seq<seq<real>>, shape: seq<nat>)
    | PerPartition(stacked: seq<seq<real>>, dims: seq<string>, coords: seq<seq<real>>, shape: seq<nat>)

  ghost predicate PartsFit(parts: seq<Table>, noise: nat -> string -> seq<real>)
  {
    forall p: nat :: p < |parts| ==> Rectangular(parts[p]) && NoiseFits(noise(p), parts[p].rows)
  }

  /** Every successful result has `n` cells. */
  predicate OkSized(rs: seq<Result<seq<real>>>, n: nat)
  {
    forall p :: 0 <= p < |rs| && rs[p].Ok? ==> |rs[p].value| == n
  }

  /**
   * The results of the first `k` tasks when all succeed, or the error of the
   * first one that fails.
   */
  function Collect(rs: seq<Result<seq<real>>>, k: nat, n: nat): (r: Result<seq<seq<real>>>)
    requires k <= |rs| && OkSized(rs, n)
    ensures r.Ok? ==> |r.value| == k && SameLength(r.value, n)
  {
    if k == 0 then Ok([])
    else
      match Collect(rs, k - 1, n)
      case Err(e) => Err(e)
      case Ok(prev) =>
        match rs[k - 1]
        case Err(e) => Err(e)
        case Ok(h) => Ok(prev + [h])
  }

  /**
   * The collected results are the per-partition results when all succeed;
   * otherwise the error is that of the first task that fails.
   */
  lemma {:induction false} CollectFirstError(rs: seq<Result<seq<real>>>, k: nat, n: nat)
    requires k <= |rs| && OkSized(rs, n)
    ensures Collect(rs, k, n).Ok? <==> forall p :: 0 <= p < k ==> rs[p].Ok?
    ensures Collect(rs, k, n).Ok? ==> forall p :: 0 <= p < k ==> rs[p] == Ok(Collect(rs, k, n).value[p])
    ensures Collect(rs, k, n).Err? ==>
              exists p :: 0 <= p < k && rs[p] == Err(Collect(rs, k, n).error) && forall q :: 0 <= q < p ==> rs[q].Ok?
    decreases k
  {
    if k > 0 {
      CollectFirstError(rs, k - 1, n);
    }
  }

  lemma {:induction false} CollectLast(rs: seq<Result<seq<real>>>, k: nat, n: nat)
    requires OkSized(rs, n) && 0 < k <= |rs| && Collect(rs, k, n).Ok?
    ensures Collect(rs, k - 1, n).Ok? && rs[k - 1] == Ok(Collect(rs, k, n).value[k - 1])
    ensures Collect(rs, k, n).value == Collect(rs, k - 1, n).value + [Collect(rs, k, n).value[k - 1]]
  {
  }

  /** A successful task extends the collected results by its own. */
  lemma {:induction false} CollectExtend(rs: seq<Result<seq<real>>>, k: nat, n: nat, finished: seq<seq<real>>, h: seq<real>)
    requires OkSized(rs, n) && k < |rs| && Collect(rs, k, n) == Ok(finished) && rs[k] == Ok(h)
    ensures Collect(rs, k + 1, n) == Ok(finished + [h])
  {
  }

  /** When the first `k` tasks succeed, each collected result is that task's own. */
  lemma {:induction false} CollectAt(rs: seq<Result<seq<real>>>, k: nat, n: nat, p: nat)
    requires p < k <= |rs| && OkSized(rs, n) && Collect(rs, k, n).Ok?
    ensures rs[p] == Ok(Collect(rs, k, n).value[p])
  {
    CollectFirstError(rs, k, n);
  }

  /** Once a task fails, every longer prefix fails with its error. */
  lemma {:induction false} FirstErrorSticks(rs: seq<Result<seq<real>>>, n: nat, k: nat, m: nat)
    requires OkSized(rs, n) && k < m <= |rs|
    requires Collect(rs, k, n).Ok? && rs[k].Err?
    ensures Collect(rs, m, n) == Err(rs[k].error)
    decreases m
  {
    if m > k + 1 {
      FirstErrorSticks(rs, n, k, m - 1);
    }
  }

  /** The histogram, or the error, of each of the first `k` partitions. */
  function PartResults(parts: seq<Table>, edges: seq<seq<real>>, names: seq<string>, histMode: string, ranges: Ranges,
                       jitter: JitterArg, noise: nat -> string -> seq<real>, k: nat): (rs: seq<Result<seq<real>>>)
    requires PartsFit(parts, noise) && |names| == |edges| && k <= |parts|
    ensures |rs| == k && OkSized(rs, Size(CellShape(edges)))
    decreases k
  {
    if k == 0 then []
    else
      var prev := PartResults(parts, edges, names, histMode, ranges, jitter, noise, k - 1);
      var r := PartitionHistogram(parts[k - 1], edges, names, histMode, ranges, jitter, noise(k - 1));
      assert OkSized(prev + [r], Size(CellShape(edges))) by {
        forall p | 0 <= p < k && (prev + [r])[p].Ok? ensures |(prev + [r])[p].value| == Size(CellShape(edges)) {
          if p < k - 1 { assert (prev + [r])[p] == prev[p]; }
        }
      }
      prev + [r]
  }

  lemma {:induction false} PartResultsAt(parts: seq<Table>, edges: seq<seq<real>>, names: seq<string>, histMode: string, ranges: Ranges,
                                         jitter: JitterArg, noise: nat -> string -> seq<real>, k: nat, p: nat)
    requires PartsFit(parts, noise) && |names| == |edges| && p < k <= |parts|
    ensures PartResults(parts, edges, names, histMode, ranges, jitter, noise, k)[p]
            == PartitionHistogram(parts[p], edges, names, histMode, ranges, jitter, noise(p))
    decreases k
  {
    if p < k - 1 {
      PartResultsAt(parts, edges, names, histMode, ranges, jitter, noise, k - 1, p);
    }
  }

  /** One partition's task: `bin_partition` on it, with `skip_test=True` and without edges. */
  method BinOne(parts: seq<Table>, edges: seq<seq<real>>, names: seq<string>, histMode: string, ranges: Ranges,
                jitter: JitterArg, noise: nat -> string -> seq<real>, p: nat)
    returns (res: Result<seq<real>>)
    requires PartsFit(parts, noise) && |names| == |edges| && p < |parts|
    ensures res == PartResults(parts, edges, names, histMode, ranges, jitter, noise, |parts|)[p]
  {
    PartResultsAt(parts, edges, names, histMode, ranges, jitter, noise, |parts|, p);
    var b := BinPartition(parts[p], edges, names, histMode, ranges, jitter, false, noise(p));
    if b.Err? {
      return Err(b.error);
    }
    return Ok(b.value.h);
  }

  /** The histograms of partitions `0 .. k-1`, or the error of the first partition that fails. */
  function HistsUpTo(parts: seq<Table>, edges: seq<seq<real>>, names: seq<string>, histMode: string, ranges: Ranges,
                     jitter: JitterArg, noise: nat -> string -> seq<real>, k: nat): (r: Result<seq<seq<real>>>)
    requires PartsFit(parts, noise) && |names| == |edges| && k <= |parts|
    ensures r.Ok? ==> |r.value| == k && SameLength(r.value, Size(CellShape(edges)))
  {
    Collect(PartResults(parts, edges, names, histMode, ranges, jitter, noise, |parts|), k, Size(CellShape(edges)))
  }

  predicate KnownMode(mode: string)
  {
    mode == "legacy" || mode == "lean" || mode == "fast"
  }

  /** `np.arange(n)` as coordinates. */
  function Arange(n: nat): (r: seq<real>)
    ensures |r| == n && forall i :: 0 <= i < n ==> r[i] == i as real
  {
    seq(n, i => i as real)
  }

  /**
   * One coordinate per bin along each axis: the bin centres. The source takes
   * the edge arrays themselves (sed/binning/binning.py:252), one value too many
   * per axis; see `PackageAsWritten`.
   */
  function Centers(edges: seq<seq<real>>): (c: seq<seq<real>>)
    ensures |c| == |edges| && forall k :: 0 <= k < |edges| ==> |c[k]| == Cells(edges[k])
  {
    seq(|edges|, k requires 0 <= k < |edges| => BinningUtils.BinEdgesToBinCenters(edges[k]))
  }

  /** One coordinate array per dimension, each as long as its dimension. */
  predicate CoordsFit(coords: seq<seq<real>>, shape: seq<nat>)
  {
    |coords| == |shape| && forall k :: 0 <= k < |shape| ==> |coords[k]| == shape[k]
  }

  /**
   * `xr.DataArray(data, coords, dims)`: ValueError when a coordinate array's
   * length differs from the size of its dimension.
   */
  function NewDataArray(a: DataArray): (r: Result<DataArray>)
    ensures r.Ok? <==> CoordsFit(a.coords, a.shape)
    ensures r.Ok? ==> r.value == a
    ensures r.Err? ==> r.error == ValueError
  {
    if CoordsFit(a.coords, a.shape) then Ok(a) else Err(ValueError)
  }

  /**
   * The returned array once all partitions are binned, with the given
   * coordinates along the binned axes: the stacked results (ValueError when
   * there are none), or the combined counts; the legacy mode reads its first
   * batch sum and so raises IndexError when no batch ran.
   */
  function PackageWith(coords: seq<seq<real>>, hs: seq<seq<real>>, edges: seq<seq<real>>, names: seq<string>,
                       mode: string, returnPartitions: bool, nParts: nat): Result<DataArray>
    requires SameLength(hs, Size(CellShape(edges)))
  {
    var n := Size(CellShape(edges));
    if returnPartitions then
      var st :- Stack(hs, n);
      NewDataArray(PerPartition(st, names + ["df_part"], coords + [Arange(nParts)], CellShape(edges) + [nParts]))
    else if mode == "legacy" && |hs| == 0 then Err(IndexError)
    else NewDataArray(Combined(SumAll(hs, n), names, coords, CellShape(edges)))
  }

  /**
   * The packaging with one coordinate per bin: it fails only when there is
   * nothing to stack or no legacy batch sum, and every array it returns is
   * well formed.
   */
  function Package(hs: seq<seq<real>>, edges: seq<seq<real>>, names: seq<string>, mode: string,
                   returnPartitions: bool, nParts: nat): (r: Result<DataArray>)
    requires SameLength(hs, Size(CellShape(edges)))
    ensures r.Err? <==> |hs| == 0 && (returnPartitions || mode == "legacy")
    ensures r.Ok? ==> CoordsFit(r.value.coords, r.value.shape)
  {
    CentersFit(edges, nParts);
    PackageWith(Centers(edges), hs, edges, names, mode, returnPartitions, nParts)
  }

  lemma {:induction false} CentersFit(edges: seq<seq<real>>, nParts: nat)
    ensures CoordsFit(Centers(edges), CellShape(edges))
    ensures CoordsFit(Centers(edges) + [Arange(nParts)], CellShape(edges) + [nParts])
  {
    var c, s := Centers(edges) + [Arange(nParts)], CellShape(edges) + [nParts];
    forall k | 0 <= k < |s| ensures |c[k]| == s[k] {
      if k < |edges| {
        assert c[k] == Centers(edges)[k] && s[k] == CellShape(edges)[k];
      }
    }
  }

  /**
   * The packaging as written: the edge arrays themselves become the
   * coordinates (`coords = dict(zip(axes, bins))`).
   */
  function PackageAsWritten(hs: seq<seq<real>>, edges: seq<seq<real>>, names: seq<string>, mode: string,
                            returnPartitions: bool, nParts: nat): (r: Result<DataArray>)
    requires SameLength(hs, Size(CellShape(edges)))
    ensures r.Ok? ==> CoordsFit(r.value.coords, r.value.shape)
  {
    PackageWith(edges, hs, edges, names, mode, returnPartitions, nParts)
  }

  /**
   * Edge coordinates never fit the counts: with any non-empty edge array the
   * as-written packaging fails, with xarray's ValueError wherever the packaging
   * by bin centres succeeds.
   */
  lemma {:induction false} EdgeCoordsRejected(hs: seq<seq<real>>, edges: seq<seq<real>>, names: seq<string>, mode: string,
                                              returnPartitions: bool, nParts: nat, k: nat)
    requires SameLength(hs, Size(CellShape(edges)))
    requires k < |edges| && |edges[k]| > 0
    ensures PackageAsWritten(hs, edges, names, mode, returnPartitions, nParts).Err?
    ensures Package(hs, edges, names, mode, returnPartitions, nParts).Ok? ==>
              PackageAsWritten(hs, edges, names, mode, returnPartitions, nParts) == Err(ValueError)
  {
    assert |edges[k]| != CellShape(edges)[k];
    assert !CoordsFit(edges, CellShape(edges));
    assert (edges + [Arange(nParts)])[k] == edges[k];
    assert (CellShape(edges) + [nParts])[k] == CellShape(edges)[k];
    assert !CoordsFit(edges + [Arange(nParts)], CellShape(edges) + [nParts]);
  }

  /**
   * One axis with edges [0, 1, 2] in legacy mode: two cells meet three edge
   * coordinates as written, and two centres once corrected.
   */
  lemma {:induction false} CoordsExample()
    ensures PackageAsWritten([[1.0, 0.0]], [[0.0, 1.0, 2.0]], ["x"], "legacy", false, 1) == Err(ValueError)
    ensures Package([[1.0, 0.0]], [[0.0, 1.0, 2.0]], ["x"], "legacy", false, 1).Ok?
    ensures Package([[1.0, 0.0]], [[0.0, 1.0, 2.0]], ["x"], "legacy", false, 1).value.coords == [[0.5, 1.5]]
  {
    var edges := [[0.0, 1.0, 2.0]];
    assert CellShape(edges) == [2];
    assert Size([2]) == 2 * Size([]);
    assert BinningUtils.BinEdgesToBinCenters(edges[0]) == [0.5, 1.5];
    assert Centers(edges) == [[0.5, 1.5]];
    EdgeCoordsRejected([[1.0, 0.0]], edges, ["x"], "legacy", false, 1, 0);
  }

  function Min(a: nat, b: nat): nat { if a < b then a else b }

  /**
   * `bin_dataframe` after normalising, over edge arrays and axis names. Errors:
   * ValueError for `n_cores == 0` (a zero range step); the first failing
   * partition's; ValueError for an unknown `mode`, raised once the first batch
   * is computed and only when partitions exist and are not returned one by one;
   * then `Package`'s. A negative `n_cores` runs no batch.
   */
  function BinEdges(parts: seq<Table>, edges: seq<seq<real>>, names: seq<string>, histMode: string, ranges: Ranges, mode: string,
                    jitter: JitterArg, nCores: int, returnPartitions: bool,
                    noise: nat -> string -> seq<real>): (r: Result<DataArray>)
    requires PartsFit(parts, noise) && |names| == |edges| >= 1
  {
    if nCores == 0 then Err(ValueError)
    else
      var hs :- if nCores < 0 then Ok([])
                else if !returnPartitions && !KnownMode(mode) && |parts| > 0 then
                  (match HistsUpTo(parts, edges, names, histMode, ranges, jitter, noise, Min(nCores, |parts|))
                   case Err(e) => Err(e)
                   case Ok(_) => Err(ValueError))
                else HistsUpTo(parts, edges, names, histMode, ranges, jitter, noise, |parts|);
      Package(hs, edges, names, mode, returnPartitions, |parts|)
  }

  /**
   * `bin_dataframe` with the normaliser's two results unpacked into two names
   * and the array sized by bin counts: the normaliser's error, or `BinEdges`.
   */
  function BinDataframeSpec(parts: seq<Table>, bins: BinningUtils.BinsArg, axes: BinningUtils.AxesArg,
                            ranges: Ranges, histMode: string, mode: string,
                            jitter: JitterArg, nCores: int, returnPartitions: bool,
                            noise: nat -> string -> seq<real>): (r: Result<DataArray>)
    requires PartsFit(parts, noise)
  {
    var p :- BinningUtils.Simplify(bins, axes, ranges);
    BinningUtils.SimplifyShape(bins, axes, ranges);
    BinEdges(parts, p.0, p.1, histMode, ranges, mode, jitter, nCores, returnPartitions, noise)
  }

  /** The shape as `bin_dataframe` computes it from the edge arrays: `x.size` per axis. */
  function FullShapeAsWritten(edges: seq<seq<real>>): (s: seq<nat>)
    ensures |s| == |edges| && forall k :: 0 <= k < |edges| ==> s[k] == |edges[k]|
  {
    seq(|edges|, k requires 0 <= k < |edges| => |edges[k]|)
  }

  lemma {:induction false} MulLt(a: nat, b: nat, c: nat, d: nat)
    requires a < b && c <= d
    ensures a * c < b * d || d == 0
  {
    if d > 0 {
      assert a * c <= a * d;
      assert a * d < b * d;
    }
  }

  /**
   * The array allocated from edge counts has more cells than any histogram
   * over those edges. Adding into it ("lean") or into its slabs ("fast")
   * follows numpy broadcasting: ValueError, unless the added part has extent
   * 1 along every axis where the two differ, and then its counts are silently
   * repeated (one axis with edges [0, 1, 2], two cores, "fast": the last slab
   * is `full[1:3] += h[1:2]`). The "legacy" mode and `return_partitions`
   * never use this array.
   */
  lemma {:induction false} FullShapeTooLarge(edges: seq<seq<real>>)
    requires |edges| >= 1 && forall k :: 0 <= k < |edges| ==> |edges[k]| >= 2
    ensures Size(FullShapeAsWritten(edges)) > Size(CellShape(edges))
    decreases |edges|
  {
    var s, c := FullShapeAsWritten(edges), CellShape(edges);
    assert s[1..] == FullShapeAsWritten(edges[1..]);
    assert c[1..] == CellShape(edges[1..]);
    if |edges| == 1 {
      assert Size(s[1..]) == 1 && Size(c[1..]) == 1;
    } else {
      FullShapeTooLarge(edges[1..]);
      SizePositive(c[1..]);
      MulLt(c[0], s[0], Size(c[1..]), Size(s[1..]));
    }
  }

  lemma {:induction false} SizePositive(shape: seq<nat>)
    requires forall k :: 0 <= k < |shape| ==> shape[k] >= 1
    ensures Size(shape) >= 1
    decreases |shape|
  {
    if |shape| > 0 {
      SizePositive(shape[1..]);
      assert shape[0] * Size(shape[1..]) >= Size(shape[1..]);
    }
  }

  /** One axis of three edges: an array of 3 cells against histograms of 2. */
  lemma {:induction false} FullShapeExample()
    ensures Size(FullShapeAsWritten([[0.0, 1.0, 2.0]])) == 3
    ensures |Kernel([[0.5]], [[0.0, 1.0, 2.0]]).value| == 2
  {
    assert FullShapeAsWritten([[0.0, 1.0, 2.0]]) == [3];
    assert CellShape([[0.0, 1.0, 2.0]]) == [2];
    assert Size([3]) == 3 * Size([]);
    assert Size([2]) == 2 * Size([]);
  }

  /**
   * `bin_dataframe` as written: the two normalised values are unpacked into
   * three names, so the call ends in ValueError whenever normalising succeeds.
   */
  function BinDataframeAsWritten(bins: BinningUtils.BinsArg, axes: BinningUtils.AxesArg,
                                 ranges: Option<seq<BinningUtils.Range>>): (r: Result<DataArray>)
    ensures r.Err?
    ensures BinningUtils.Simplify(bins, axes, ranges).Ok? ==> r == Err(ValueError)
  {
    match BinningUtils.Simplify(bins, axes, ranges)
    case Err(e) => Err(e)
    case Ok(_) => Err(ValueError)
  }

  /** Every event of every partition, in partition order, as the kernel sees it. */
  function AllRows(parts: seq<Table>, names: seq<string>, k: nat): (rows: seq<seq<real>>)
    requires k <= |parts| && forall p :: 0 <= p < k ==> Rectangular(parts[p]) && HasAll(parts[p], names)
    ensures forall i :: 0 <= i < |rows| ==> |rows[i]| == |names|
  {
    if k == 0 then []
    else
      var prev := AllRows(parts, names, k - 1);
      var more := RowsOf(parts[k - 1], names);
      assert forall i :: 0 <= i < |prev + more| ==> |(prev + more)[i]| == |names| by {
        forall i | 0 <= i < |prev + more| ensures |(prev + more)[i]| == |names| {
          if i >= |prev| { assert (prev + more)[i] == more[i - |prev|]; }
        }
      }
      prev + more
  }

  /**
   * Without jitter, adding up the partition histograms gives the histogram of
   * all events of the frame: splitting into partitions loses and duplicates nothing.
   */
  lemma {:induction false} PartitionsAddUp(parts: seq<Table>, edges: seq<seq<real>>, names: seq<string>,
                         histMode: string, ranges: Ranges, noise: nat -> string -> seq<real>, k: nat)
    requires PartsFit(parts, noise) && |names| == |edges| && k <= |parts| && AllMonotone(edges)
    requires HistsUpTo(parts, edges, names, histMode, ranges, NoJitter, noise, k).Ok?
    ensures forall p :: 0 <= p < k ==> HasAll(parts[p], names)
    ensures Fits(AllRows(parts, names, k), edges)
    ensures SumAll(HistsUpTo(parts, edges, names, histMode, ranges, NoJitter, noise, k).value, Size(CellShape(edges)))
            == Hist(AllRows(parts, names, k), edges)
  {
    var hs := HistsUpTo(parts, edges, names, histMode, ranges, NoJitter, noise, k).value;
    forall p | 0 <= p < k
      ensures Rectangular(parts[p]) && HasAll(parts[p], names)
    {
      PartitionHist(parts, edges, names, histMode, ranges, noise, k, p);
    }
    var own := OwnHists(parts, names, edges, k);
    forall p | 0 <= p < k ensures hs[p] == own[p] {
      PartitionHist(parts, edges, names, histMode, ranges, noise, k, p);
    }
    assert hs == own;
    SumOfOwnHists(parts, names, edges, k);
  }

  /** Partition `p` among the first `k`, binned without jitter, contributes the histogram of its own rows. */
  lemma {:induction false} PartitionHist(parts: seq<Table>, edges: seq<seq<real>>, names: seq<string>,
                      histMode: string, ranges: Ranges, noise: nat -> string -> seq<real>, k: nat, p: nat)
    requires PartsFit(parts, noise) && |names| == |edges| && p < k <= |parts| && AllMonotone(edges)
    requires HistsUpTo(parts, edges, names, histMode, ranges, NoJitter, noise, k).Ok?
    ensures Rectangular(parts[p]) && HasAll(parts[p], names) && Fits(RowsOf(parts[p], names), edges)
    ensures HistsUpTo(parts, edges, names, histMode, ranges, NoJitter, noise, k).value[p]
            == Hist(RowsOf(parts[p], names), edges)
  {
    var rs := PartResults(parts, edges, names, histMode, ranges, NoJitter, noise, |parts|);
    CollectAt(rs, k, Size(CellShape(edges)), p);
    PartResultsAt(parts, edges, names, histMode, ranges, NoJitter, noise, |parts|, p);
    NoJitterHistogram(parts[p], edges, names, histMode, ranges, noise(p));
  }

  /** The histogram of each of the first `k` partitions' own rows. */
  function OwnHists(parts: seq<Table>, names: seq<string>, edges: seq<seq<real>>, k: nat): (hs: seq<seq<real>>)
    requires k <= |parts| && |names| == |edges| && AllMonotone(edges)
    requires forall p :: 0 <= p < k ==> Rectangular(parts[p]) && HasAll(parts[p], names)
    ensures |hs| == k && SameLength(hs, Size(CellShape(edges)))
  {
    seq(k, p requires 0 <= p < k => Hist(RowsOf(parts[p], names), edges))
  }

  /** Per-partition histograms of each partition's rows add up to the histogram of all rows. */
  lemma {:induction false} SumOfOwnHists(parts: seq<Table>, names: seq<string>, edges: seq<seq<real>>, k: nat)
    requires k <= |parts| && |names| == |edges| && AllMonotone(edges)
    requires forall p :: 0 <= p < k ==> Rectangular(parts[p]) && HasAll(parts[p], names)
    ensures Fits(AllRows(parts, names, k), edges)
    ensures SumAll(OwnHists(parts, names, edges, k), Size(CellShape(edges))) == Hist(AllRows(parts, names, k), edges)
    decreases k
  {
    if k == 0 {
      NoHists(parts, names, edges);
    } else {
      SumOfOwnHists(parts, names, edges, k - 1);
      OwnHistsStep(parts, names, edges, k);
      AllRowsStep(parts, names, edges, k);
    }
  }

  lemma {:induction false} NoHists(parts: seq<Table>, names: seq<string>, edges: seq<seq<real>>)
    requires |names| == |edges| && AllMonotone(edges)
    ensures Fits(AllRows(parts, names, 0), edges)
    ensures SumAll(OwnHists(parts, names, edges, 0), Size(CellShape(edges))) == Hist(AllRows(parts, names, 0), edges)
  {
    var n := Size(CellShape(edges));
    assert OwnHists(parts, names, edges, 0) == [];
    assert SumAll([], n) == Zeros(n);
  }

  lemma {:induction false} OwnHistsStep(parts: seq<Table>, names: seq<string>, edges: seq<seq<real>>, k: nat)
    requires 0 < k <= |parts| && |names| == |edges| && AllMonotone(edges)
    requires forall p :: 0 <= p < k ==> Rectangular(parts[p]) && HasAll(parts[p], names)
    ensures Fits(RowsOf(parts[k - 1], names), edges)
    ensures SumAll(OwnHists(parts, names, edges, k), Size(CellShape(edges)))
            == Add(SumAll(OwnHists(parts, names, edges, k - 1), Size(CellShape(edges))),
                   Hist(RowsOf(parts[k - 1], names), edges))
  {
    var hs := OwnHists(parts, names, edges, k);
    assert hs[..k - 1] == OwnHists(parts, names, edges, k - 1);
    SumAllLast(hs, Size(CellShape(edges)));
  }

  lemma {:induction false} AllRowsStep(parts: seq<Table>, names: seq<string>, edges: seq<seq<real>>, k: nat)
    requires 0 < k <= |parts| && |names| == |edges| && AllMonotone(edges)
    requires forall p :: 0 <= p < k ==> Rectangular(parts[p]) && HasAll(parts[p], names)
    requires Fits(AllRows(parts, names, k - 1), edges)
    ensures Fits(RowsOf(parts[k - 1], names), edges) && Fits(AllRows(parts, names, k), edges)
    ensures Hist(AllRows(parts, names, k), edges)
            == Add(Hist(AllRows(parts, names, k - 1), edges), Hist(RowsOf(parts[k - 1], names), edges))
  {
    var before, last := AllRows(parts, names, k - 1), RowsOf(parts[k - 1], names);
    assert AllRows(parts, names, k) == before + last;
    RowsFit(parts[k - 1], names, edges);
    HistAppend(before, last, edges);
  }

  /** Combined results count every event of the frame in its cell, whatever the mode and batch size. */
  lemma {:induction false} CombinedIsHistogramOfAll(parts: seq<Table>, edges: seq<seq<real>>, names: seq<string>,
                                 histMode: string, ranges: Ranges, mode: string, nCores: nat, noise: nat -> string -> seq<real>)
    requires PartsFit(parts, noise) && |names| == |edges| >= 1 && nCores > 0 && AllMonotone(edges)
    requires BinEdges(parts, edges, names, histMode, ranges, mode, NoJitter, nCores, false, noise).Ok?
    ensures forall q :: 0 <= q < |parts| ==> HasAll(parts[q], names)
    ensures Fits(AllRows(parts, names, |parts|), edges)
    ensures BinEdges(parts, edges, names, histMode, ranges, mode, NoJitter, nCores, false, noise).value.data
            == Hist(AllRows(parts, names, |parts|), edges)
  {
    assert HistsUpTo(parts, edges, names, histMode, ranges, NoJitter, noise, |parts|).Ok?;
    PartitionsAddUp(parts, edges, names, histMode, ranges, noise, |parts|);
  }

  /** Summing the per-partition results over the `df_part` axis gives the combined counts. */
  lemma {:induction false} PartitionsSumToCombined(parts: seq<Table>, edges: seq<seq<real>>, names: seq<string>,
                                histMode: string, ranges: Ranges, mode: string, nCores: nat, jitter: JitterArg,
                                noise: nat -> string -> seq<real>, k: nat)
    requires PartsFit(parts, noise) && |names| == |edges| >= 1 && nCores > 0 && KnownMode(mode)
    requires BinEdges(parts, edges, names, histMode, ranges, mode, jitter, nCores, true, noise).Ok?
    requires k < Size(CellShape(edges))
    ensures BinEdges(parts, edges, names, histMode, ranges, mode, jitter, nCores, false, noise).Ok?
    ensures k < |BinEdges(parts, edges, names, histMode, ranges, mode, jitter, nCores, true, noise).value.stacked|
    ensures Sum(BinEdges(parts, edges, names, histMode, ranges, mode, jitter, nCores, true, noise).value.stacked[k])
            == BinEdges(parts, edges, names, histMode, ranges, mode, jitter, nCores, false, noise).value.data[k]
  {
    var hs := HistsUpTo(parts, edges, names, histMode, ranges, jitter, noise, |parts|);
    assert hs.Ok?;
    StackSum(hs.value, Size(CellShape(edges)), k);
  }

  lemma {:induction false} SumAllAppend(a: seq<seq<real>>, b: seq<seq<real>>, n: nat)
    requires SameLength(a, n) && SameLength(b, n)
    ensures SameLength(a + b, n)
    ensures SumAll(a + b, n) == Add(SumAll(a, n), SumAll(b, n))
  {
    assert SameLength(a + b, n) by {
      forall p | 0 <= p < |a + b| ensures |(a + b)[p]| == n {
        if p >= |a| { assert (a + b)[p] == b[p - |a|]; }
      }
    }
    forall k | 0 <= k < n ensures SumAt(a + b, k) == SumAt(a, k) + SumAt(b, k) {
      SumAtAppend(a, b, k);
    }
  }

  /**
   * One batch: the partitions `i .. i + n_cores - 1` that exist, binned in order
   * (`bin_partition` with `skip_test=True`), or the first one's error.
   */
  method ComputeBatch(parts: seq<Table>, edges: seq<seq<real>>, names: seq<string>, histMode: string, ranges: Ranges,
                      jitter: JitterArg, noise: nat -> string -> seq<real>, i: nat, nCores: nat,
                      ghost done: seq<seq<real>>)
    returns (res: Result<seq<seq<real>>>)
    requires PartsFit(parts, noise) && |names| == |edges| && i < |parts| && nCores > 0
    requires HistsUpTo(parts, edges, names, histMode, ranges, jitter, noise, i) == Ok(done)
    ensures res.Err? ==> forall m :: Min(i + nCores, |parts|) <= m <= |parts| ==>
              HistsUpTo(parts, edges, names, histMode, ranges, jitter, noise, m) == Err(res.error)
    ensures res.Ok? ==> |res.value| > 0 && SameLength(res.value, Size(CellShape(edges)))
    ensures res.Ok? ==>
              HistsUpTo(parts, edges, names, histMode, ranges, jitter, noise, Min(i + nCores, |parts|)) == Ok(done + res.value)
  {
    ghost var n := Size(CellShape(edges));
    var coreResults: seq<seq<real>> := [];
    assert done + coreResults == done;
    var j := 0;
    while j < nCores
      invariant 0 <= j <= nCores && i + j <= |parts| && |coreResults| == j && SameLength(coreResults, n)
      invariant HistsUpTo(parts, edges, names, histMode, ranges, jitter, noise, i + j) == Ok(done + coreResults)
    {
      var partitionIndex := i + j;
      if partitionIndex >= |parts| {
        break;
      }
      var b := BatchTask(parts, edges, names, histMode, ranges, jitter, noise, partitionIndex, done + coreResults);
      if b.Err? {
        return Err(b.error);
      }
      assert done + coreResults + [b.value] == done + (coreResults + [b.value]);
      coreResults := coreResults + [b.value];
      j := j + 1;
    }
    assert i + j == Min(i + nCores, |parts|);
    return Ok(coreResults);
  }

  /** A failing batch decides the result: its error is that of the first failing partition. */
  lemma {:induction false} BinEdgesBatchError(parts: seq<Table>, edges: seq<seq<real>>, names: seq<string>, histMode: string, ranges: Ranges,
                           mode: string, jitter: JitterArg, nCores: int, returnPartitions: bool,
                           noise: nat -> string -> seq<real>, e: Error)
    requires PartsFit(parts, noise) && |names| == |edges| >= 1 && nCores > 0
    requires HistsUpTo(parts, edges, names, histMode, ranges, jitter, noise, |parts|) == Err(e)
    requires !returnPartitions && !KnownMode(mode) && |parts| > 0 ==>
               HistsUpTo(parts, edges, names, histMode, ranges, jitter, noise, Min(nCores, |parts|)) == Err(e)
    ensures BinEdges(parts, edges, names, histMode, ranges, mode, jitter, nCores, returnPartitions, noise) == Err(e)
  {
  }

  /** An unknown combination mode is reported once the first batch has succeeded. */
  lemma {:induction false} BinEdgesUnknownMode(parts: seq<Table>, edges: seq<seq<real>>, names: seq<string>, histMode: string, ranges: Ranges,
                            mode: string, jitter: JitterArg, nCores: int,
                            noise: nat -> string -> seq<real>)
    requires PartsFit(parts, noise) && |names| == |edges| >= 1 && nCores > 0
    requires !KnownMode(mode) && |parts| > 0
    requires HistsUpTo(parts, edges, names, histMode, ranges, jitter, noise, Min(nCores, |parts|)).Ok?
    ensures BinEdges(parts, edges, names, histMode, ranges, mode, jitter, nCores, false, noise) == Err(ValueError)
  {
  }

  /** When every partition succeeded (or none ran), the result is the packaging of their histograms. */
  lemma {:induction false} BinEdgesDone(parts: seq<Table>, edges: seq<seq<real>>, names: seq<string>, histMode: string, ranges: Ranges,
                     mode: string, jitter: JitterArg, nCores: int, returnPartitions: bool,
                     noise: nat -> string -> seq<real>, done: seq<seq<real>>)
    requires PartsFit(parts, noise) && |names| == |edges| >= 1 && nCores != 0
    requires nCores < 0 ==> done == []
    requires nCores > 0 ==> HistsUpTo(parts, edges, names, histMode, ranges, jitter, noise, |parts|) == Ok(done)
    requires nCores > 0 && !returnPartitions && |parts| > 0 ==> KnownMode(mode)
    ensures SameLength(done, Size(CellShape(edges)))
    ensures BinEdges(parts, edges, names, histMode, ranges, mode, jitter, nCores, returnPartitions, noise)
            == Package(done, edges, names, mode, returnPartitions, |parts|)
  {
  }

  /**
   * The task of partition `k` once partitions `0 .. k-1` are finished: its
   * histogram extends them, or its error is the outcome of every longer prefix.
   */
  method BatchTask(parts: seq<Table>, edges: seq<seq<real>>, names: seq<string>, histMode: string, ranges: Ranges,
                   jitter: JitterArg, noise: nat -> string -> seq<real>, k: nat, ghost finished: seq<seq<real>>)
    returns (res: Result<seq<real>>)
    requires PartsFit(parts, noise) && |names| == |edges| && k < |parts|
    requires HistsUpTo(parts, edges, names, histMode, ranges, jitter, noise, k) == Ok(finished)
    ensures res.Err? ==> forall m :: k < m <= |parts| ==>
              HistsUpTo(parts, edges, names, histMode, ranges, jitter, noise, m) == Err(res.error)
    ensures res.Ok? ==> |res.value| == Size(CellShape(edges))
    ensures res.Ok? ==> HistsUpTo(parts, edges, names, histMode, ranges, jitter, noise, k + 1) == Ok(finished + [res.value])
  {
    res := BinOne(parts, edges, names, histMode, ranges, jitter, noise, k);
    if res.Err? {
      FailureSticks(parts, edges, names, histMode, ranges, jitter, noise, k);
    } else {
      HistsExtend(parts, edges, names, histMode, ranges, jitter, noise, k, finished, res.value);
    }
  }

  /** A successful partition extends the finished prefix by its histogram. */
  lemma {:induction false} HistsExtend(parts: seq<Table>, edges: seq<seq<real>>, names: seq<string>, histMode: string, ranges: Ranges,
                    jitter: JitterArg, noise: nat -> string -> seq<real>, k: nat,
                    finished: seq<seq<real>>, h: seq<real>)
    requires PartsFit(parts, noise) && |names| == |edges| && k < |parts|
    requires HistsUpTo(parts, edges, names, histMode, ranges, jitter, noise, k) == Ok(finished)
    requires PartResults(parts, edges, names, histMode, ranges, jitter, noise, |parts|)[k] == Ok(h)
    ensures HistsUpTo(parts, edges, names, histMode, ranges, jitter, noise, k + 1) == Ok(finished + [h])
  {
    var rs := PartResults(parts, edges, names, histMode, ranges, jitter, noise, |parts|);
    CollectExtend(rs, k, Size(CellShape(edges)), finished, h);
  }

  /** A failing partition decides the outcome of every longer prefix of partitions. */
  lemma {:induction false} FailureSticks(parts: seq<Table>, edges: seq<seq<real>>, names: seq<string>, histMode: string, ranges: Ranges,
                      jitter: JitterArg, noise: nat -> string -> seq<real>, k: nat)
    requires PartsFit(parts, noise) && |names| == |edges| && k < |parts|
    requires HistsUpTo(parts, edges, names, histMode, ranges, jitter, noise, k).Ok?
    requires PartResults(parts, edges, names, histMode, ranges, jitter, noise, |parts|)[k].Err?
    ensures forall m :: k < m <= |parts| ==>
              HistsUpTo(parts, edges, names, histMode, ranges, jitter, noise, m)
              == Err(PartResults(parts, edges, names, histMode, ranges, jitter, noise, |parts|)[k].error)
  {
    var rs := PartResults(parts, edges, names, histMode, ranges, jitter, noise, |parts|);
    forall m | k < m <= |parts| ensures Collect(rs, m, Size(CellShape(edges))) == Err(rs[k].error) {
      FirstErrorSticks(rs, Size(CellShape(edges)), k, m);
    }
  }

  /** The main loop of `bin_dataframe`, over normalised edges and axis names, then the packaging. */
  method BinWithEdges(parts: seq<Table>, edges: seq<seq<real>>, names: seq<string>, histMode: string, ranges: Ranges, mode: string,
                      jitter: JitterArg, nCores: int, returnPartitions: bool, noise: nat -> string -> seq<real>)
    returns (r: Result<DataArray>)
    requires PartsFit(parts, noise) && |names| == |edges| >= 1
    ensures r == BinEdges(parts, edges, names, histMode, ranges, mode, jitter, nCores, returnPartitions, noise)
  {
    var shape := CellShape(edges);
    var n := Size(shape);
    var full := new real[n](_ => 0.0);
    var partitionResults: seq<seq<real>> := [];
    if nCores == 0 {
      return Err(ValueError);
    }
    ghost var done: seq<seq<real>> := [];
    assert full[..] == SumAll(done, n);
    if nCores > 0 {
      var i := 0;
      while i < |parts|
        invariant |done| == Min(i, |parts|)
        invariant HistsUpTo(parts, edges, names, histMode, ranges, jitter, noise, |done|) == Ok(done)
        invariant i > 0 && !returnPartitions ==> KnownMode(mode)
        invariant returnPartitions ==> partitionResults == done
        invariant !returnPartitions && mode == "legacy" ==>
                    SameLength(partitionResults, n) && (|partitionResults| == 0 <==> |done| == 0) &&
                    SumAll(partitionResults, n) == SumAll(done, n)
        invariant !returnPartitions && mode != "legacy" ==> full[..] == SumAll(done, n)
        decreases |parts| - i
      {
        var batch := ComputeBatch(parts, edges, names, histMode, ranges, jitter, noise, i, nCores, done);
        if batch.Err? {
          assert HistsUpTo(parts, edges, names, histMode, ranges, jitter, noise, |parts|) == Err(batch.error);
          assert i == 0 ==> Min(i + nCores, |parts|) == Min(nCores, |parts|);
          BinEdgesBatchError(parts, edges, names, histMode, ranges, mode, jitter, nCores, returnPartitions, noise, batch.error);
          return Err(batch.error);
        }
        var coreResults := batch.value;
        if !returnPartitions && !KnownMode(mode) {
          BinEdgesUnknownMode(parts, edges, names, histMode, ranges, mode, jitter, nCores, noise);
          return Err(ValueError);
        }
        SumAllAppend(done, coreResults, n);
        partitionResults := CombineBatch(full, partitionResults, coreResults, mode, returnPartitions,
                                         shape, nCores, done);
        done := done + coreResults;
        i := i + nCores;
      }
    }
    BinEdgesDone(parts, edges, names, histMode, ranges, mode, jitter, nCores, returnPartitions, noise, done);
    r := Finish(full, partitionResults, edges, names, mode, returnPartitions, |parts|, done);
  }

  /**
   * One pass of the loop body after a batch: keep the results per partition,
   * add the batch sum to the legacy list, or add it into the full array.
   */
  method CombineBatch(full: array<real>, partitionResults: seq<seq<real>>, coreResults: seq<seq<real>>,
                      mode: string, returnPartitions: bool, shape: seq<nat>, nCores: nat,
                      ghost done: seq<seq<real>>)
    returns (results: seq<seq<real>>)
    requires returnPartitions || KnownMode(mode)
    requires nCores > 0 && full.Length == Size(shape) && |shape| >= 1
    requires |coreResults| > 0 && SameLength(coreResults, full.Length) && SameLength(done, full.Length)
    requires returnPartitions ==> partitionResults == done
    requires !returnPartitions && mode == "legacy" ==>
               SameLength(partitionResults, full.Length) && (|partitionResults| == 0 <==> |done| == 0) &&
               SumAll(partitionResults, full.Length) == SumAll(done, full.Length)
    requires !returnPartitions && mode != "legacy" ==> full[..] == SumAll(done, full.Length)
    requires SumAll(done + coreResults, full.Length) == Add(SumAll(done, full.Length), SumAll(coreResults, full.Length))
    modifies full
    ensures returnPartitions ==> results == done + coreResults
    ensures !returnPartitions && mode == "legacy" ==>
               SameLength(results, full.Length) && |results| > 0 &&
               SumAll(results, full.Length) == SumAll(done + coreResults, full.Length)
    ensures !returnPartitions && mode != "legacy" ==> full[..] == SumAll(done + coreResults, full.Length)
    ensures returnPartitions || mode == "legacy" ==> full[..] == old(full[..])
  {
    var n := full.Length;
    results := partitionResults;
    if returnPartitions {
      results := partitionResults + coreResults;
    } else if mode == "legacy" {
      var partitionResult := AccumulateLegacy(coreResults);
      var next := partitionResults + [partitionResult];
      assert SameLength(next, n) by {
        forall p | 0 <= p < |next| ensures |next[p]| == n {
          if p < |partitionResults| { assert next[p] == partitionResults[p]; }
        }
      }
      SumAllLast(next, n);
      assert next[..|partitionResults|] == partitionResults;
      results := next;
    } else if mode == "lean" {
      CombineLean(full, coreResults);
    } else {
      CombineFast(full, coreResults, shape[0], Size(shape[1..]), nCores);
    }
  }

  /**
   * The packaging after the loop: the per-partition results stacked, or the
   * legacy list summed (IndexError when empty), or the full array.
   */
  method Finish(full: array<real>, partitionResults: seq<seq<real>>, edges: seq<seq<real>>, names: seq<string>,
                mode: string, returnPartitions: bool, nParts: nat, ghost done: seq<seq<real>>)
    returns (r: Result<DataArray>)
    requires full.Length == Size(CellShape(edges)) && SameLength(done, full.Length)
    requires returnPartitions ==> partitionResults == done
    requires !returnPartitions && mode == "legacy" ==>
               SameLength(partitionResults, full.Length) && (|partitionResults| == 0 <==> |done| == 0) &&
               SumAll(partitionResults, full.Length) == SumAll(done, full.Length)
    requires !returnPartitions && mode != "legacy" ==> full[..] == SumAll(done, full.Length)
    ensures r == Package(done, edges, names, mode, returnPartitions, nParts)
  {
    var n := full.Length;
    var shape := CellShape(edges);
    if returnPartitions {
      var st := Stack(partitionResults, n);
      if st.Err? {
        return Err(st.error);
      }
      return NewDataArray(PerPartition(st.value, names + ["df_part"], Centers(edges) + [Arange(nParts)], shape + [nParts]));
    }
    if mode == "legacy" {
      if |partitionResults| == 0 {
        return Err(IndexError);
      }
      var data := AccumulateLegacy(partitionResults);
      return NewDataArray(Combined(data, names, Centers(edges), shape));
    }
    return NewDataArray(Combined(full[..], names, Centers(edges), shape));
  }

  /** `bin_dataframe`: normalise the binning arguments, then bin over the edges. */
  method BinDataframe(parts: seq<Table>, bins: BinningUtils.BinsArg, axes: BinningUtils.AxesArg,
                      ranges: Ranges, histMode: string, mode: string,
                      jitter: JitterArg, nCores: int, returnPartitions: bool, noise: nat -> string -> seq<real>)
    returns (r: Result<DataArray>)
    requires PartsFit(parts, noise)
    ensures r == BinDataframeSpec(parts, bins, axes, ranges, histMode, mode, jitter, nCores, returnPartitions, noise)
  {
    var s := BinningUtils.SimplifyBinningArguments(bins, axes, ranges);
    if s.Err? {
      return Err(s.error);
    }
    BinningUtils.SimplifyShape(bins, axes, ranges);
    r := BinWithEdges(parts, s.value.0, s.value.1, histMode, ranges, mode, jitter, nCores, returnPartitions, noise);
  }
}
