/**
 * sed/binning/binning.py, `bin_partition` and `apply_jitter_on_column`: the
 * histogram of one data frame partition over given bin edges, optionally after
 * jittering the binned columns of a copy of the partition by a fraction of the
 * bin width. The random draws are parameters: `noise(c)` is the sample drawn
 * for column `c` (uniform on [-1, 1] or standard normal, by mode).
 */
module Binning {
  import opened Wrappers
  import opened Frames
  import opened Histogram
  import BinningUtils
  import DfOps

  /** The per-column jitter settings; an absent key takes its default. */
  datatype JitterParams = JitterParams(amplitude: Option<real>, mode: Option<string>)

  /** The `jitter` argument: absent, a list of columns, or a dict of columns to settings (None for defaults). */
  datatype JitterArg =
    | NoJitter
    | JitterList(cols: seq<string>)
    | JitterDict(items: seq<(string, Option<JitterParams>)>)

  /** One planned `apply_jitter_on_column` call. */
  datatype Jitter = Jitter(col: string, amp: real, mode: string)

  datatype Binned = Counts(h: seq<real>) | CountsAndEdges(h: seq<real>, edges: seq<seq<real>>)

  function ItemKeys(items: seq<(string, Option<JitterParams>)>): set<string>
  {
    set i | 0 <= i < |items| :: items[i].0
  }

  /** `{k: None for k in cols}`: each column once, at its first occurrence, with default settings. */
  function FromKeys(cols: seq<string>): (items: seq<(string, Option<JitterParams>)>)
    ensures forall x :: x in ItemKeys(items) <==> x in cols
    ensures forall i :: 0 <= i < |items| ==> items[i].1 == None
    ensures forall i, j :: 0 <= i < j < |items| ==> items[i].0 != items[j].0
    decreases |cols|
  {
    if |cols| == 0 then []
    else
      var init := cols[..|cols| - 1];
      var c := cols[|cols| - 1];
      var prev := FromKeys(init);
      assert forall x :: x in cols <==> x in init || x == c by {
        assert cols == init + [c];
      }
      if c in ItemKeys(prev) then prev
      else
        var r := prev + [(c, None)];
        assert ItemKeys(r) == ItemKeys(prev) + {c} by {
          assert r[|prev|].0 == c;
          forall x | x in ItemKeys(r) ensures x in ItemKeys(prev) + {c} {
            var i :| 0 <= i < |r| && r[i].0 == x;
            if i < |prev| { assert prev[i].0 == x; }
          }
          forall x | x in ItemKeys(prev) ensures x in ItemKeys(r) {
            var i :| 0 <= i < |prev| && prev[i].0 == x;
            assert r[i].0 == x;
          }
        }
        r
  }

  /** The jitter settings as the dict `bin_partition` iterates over. */
  function JitterItems(jitter: JitterArg): seq<(string, Option<JitterParams>)>
  {
    match jitter
    case NoJitter => []
    case JitterList(cols) => FromKeys(cols)
    case JitterDict(items) => items
  }

  /** `axes.index(col)`: the first position of `col`. */
  function IndexOf(axes: seq<string>, col: string): (i: nat)
    requires col in axes
    ensures i < |axes| && axes[i] == col && forall j :: 0 <= j < i ==> axes[j] != col
  {
    if axes[0] == col then 0 else 1 + IndexOf(axes[1..], col)
  }

  /** The width of the first bin, `abs(e[0] - e[1])`, the jitter unit of an axis. */
  function BinSize(e: seq<real>): real
    requires |e| >= 2
  {
    DfOps.Abs(e[0] - e[1])
  }

  /**
   * One item of the jitter dict: nothing for a column that is not binned;
   * IndexError when the axis has fewer than three edges; AssertionError when the
   * first bin and the last-but-one bin differ in width; otherwise a jitter by
   * `amplitude` (default 0.5) times the bin width, in `mode` (default "uniform").
   */
  function JitterStep(col: string, jpars: Option<JitterParams>, axes: seq<string>, edges: seq<seq<real>>)
    : (r: Result<Option<Jitter>>)
    requires |axes| == |edges|
    ensures col !in axes ==> r == Ok(None)
    ensures col in axes ==> r != Ok(None)
    ensures col in axes && |edges[IndexOf(axes, col)]| < 3 ==> r == Err(IndexError)
    ensures r.Err? ==> r.error in {IndexError, AssertionError}
    ensures r.Ok? && r.value.Some? ==>
              var e := edges[IndexOf(axes, col)];
              r.value.value.col == col && |e| >= 3 &&
              BinSize(e) == DfOps.Abs(e[|e| - 3] - e[|e| - 2]) &&
              r.value.value.amp == (if jpars.Some? && jpars.value.amplitude.Some? then jpars.value.amplitude.value else 0.5) * BinSize(e)
  {
    if col !in axes then Ok(None)
    else
      var e := edges[IndexOf(axes, col)];
      var pars := if jpars.None? then JitterParams(None, None) else jpars.value;
      var amp := if pars.amplitude.Some? then pars.amplitude.value else 0.5;
      var mode := if pars.mode.Some? then pars.mode.value else "uniform";
      if |e| < 3 then Err(IndexError)
      else if BinSize(e) != DfOps.Abs(e[|e| - 3] - e[|e| - 2]) then Err(AssertionError)
      else Ok(Some(Jitter(col, amp * BinSize(e), mode)))
  }

  /** The column after `apply_jitter_on_column`: `amp * noise` added in mode "uniform" or "normal", untouched otherwise. */
  function Jittered(t: Table, col: string, amp: real, mode: string, noise: seq<real>): (r: Table)
    requires Rectangular(t) && |noise| == t.rows
    ensures Rectangular(r) && r.rows == t.rows && r.columns.Keys == t.columns.Keys
    ensures forall c :: c in t.columns && c != col ==> r.columns[c] == t.columns[c]
  {
    if col in t.columns && (mode == "uniform" || mode == "normal")
    then t.(columns := t.columns[col := DfOps.AddScaled(t.columns[col], amp, noise)])
    else t
  }

  /**
   * `apply_jitter_on_column`: KeyError when the column is missing; otherwise
   * the column gains `amp` times the drawn noise, or stays as it is in any mode
   * other than "uniform" and "normal".
   */
  method ApplyJitterOnColumn(df: DataFrame, amp: real, col: string, mode: string, noise: seq<real>)
    returns (o: Outcome)
    requires df.Valid() && |noise| == df.table.rows
    modifies df
    ensures df.Valid()
    ensures col !in old(df.table.columns) ==> o == Fail(KeyError) && df.table == old(df.table)
    ensures col in old(df.table.columns) ==> o == Pass && df.table == Jittered(old(df.table), col, amp, mode, noise)
  {
    if col !in df.table.columns {
      return Fail(KeyError);
    }
    if mode == "uniform" || mode == "normal" {
      df.SetColumn(col, DfOps.AddScaled(df.table.columns[col], amp, noise));
    }
    return Pass;
  }

  /** Uniform jitter moves each value by at most the amplitude; every other column stays as it was. */
  lemma {:induction false} JitterBound(t: Table, col: string, amp: real, noise: seq<real>, i: nat)
    requires Rectangular(t) && |noise| == t.rows && col in t.columns && i < t.rows
    requires -1.0 <= noise[i] <= 1.0
    ensures -DfOps.Abs(amp) <= Jittered(t, col, amp, "uniform", noise).columns[col][i] - t.columns[col][i] <= DfOps.Abs(amp)
  {
    DfOps.AddScaledBound(t.columns[col], amp, noise, i);
  }

  /** Every binned column is a column of the frame. */
  predicate HasAll(t: Table, axes: seq<string>)
  {
    forall i :: 0 <= i < |axes| ==> axes[i] in t.columns
  }

  /** `part[axes].copy()`: the binned columns only. */
  function Selection(part: Table, axes: seq<string>): (r: Table)
    requires Rectangular(part) && HasAll(part, axes)
    ensures Rectangular(r) && r.rows == part.rows
    ensures forall c :: c in r.columns <==> c in axes
    ensures forall c :: c in r.columns ==> r.columns[c] == part.columns[c]
  {
    Table(map c | c in part.columns && c in axes :: part.columns[c], part.rows)
  }

  /** The events as the kernel sees them: one row per event, one value per axis, in axis order. */
  function RowsOf(t: Table, axes: seq<string>): (rows: seq<seq<real>>)
    requires Rectangular(t) && HasAll(t, axes)
    ensures |rows| == t.rows
    ensures forall r :: 0 <= r < t.rows ==> |rows[r]| == |axes|
    ensures forall r, k :: 0 <= r < t.rows && 0 <= k < |axes| ==> rows[r][k] == t.columns[axes[k]][r]
  {
    seq(t.rows, r requires 0 <= r < t.rows => seq(|axes|, k requires 0 <= k < |axes| => t.columns[axes[k]][r]))
  }

  /** The draws the model is given: one sample per row for every column. */
  ghost predicate NoiseFits(noise: string -> seq<real>, rows: nat)
  {
    forall c :: |noise(c)| == rows
  }

  /** The jitter loop from item `k` on: each item applied to the copy in turn, stopping at the first error. */
  function JitterFrom(t: Table, items: seq<(string, Option<JitterParams>)>, k: nat,
                      axes: seq<string>, edges: seq<seq<real>>, noise: string -> seq<real>): (r: Result<Table>)
    requires Rectangular(t) && k <= |items| && |axes| == |edges| && NoiseFits(noise, t.rows)
    ensures r.Ok? ==> Rectangular(r.value) && r.value.rows == t.rows && r.value.columns.Keys == t.columns.Keys
    decreases |items| - k
  {
    if k == |items| then Ok(t)
    else
      match JitterStep(items[k].0, items[k].1, axes, edges)
      case Err(e) => Err(e)
      case Ok(None) => JitterFrom(t, items, k + 1, axes, edges, noise)
      case Ok(Some(j)) => JitterFrom(Jittered(t, j.col, j.amp, j.mode, noise(j.col)), items, k + 1, axes, edges, noise)
  }

  /** Items naming no binned column change nothing. */
  lemma {:induction false} UnbinnedJitterIgnored(t: Table, items: seq<(string, Option<JitterParams>)>, k: nat,
                                                 axes: seq<string>, edges: seq<seq<real>>, noise: string -> seq<real>)
    requires Rectangular(t) && k <= |items| && |axes| == |edges| && NoiseFits(noise, t.rows)
    requires forall i :: k <= i < |items| ==> items[i].0 !in axes
    ensures JitterFrom(t, items, k, axes, edges, noise) == Ok(t)
    decreases |items| - k
  {
    if k < |items| {
      UnbinnedJitterIgnored(t, items, k + 1, axes, edges, noise);
    }
  }

  /** Jitter only ever changes binned columns. */
  lemma {:induction false} JitterKeepsOtherColumns(t: Table, items: seq<(string, Option<JitterParams>)>, k: nat,
                                                   axes: seq<string>, edges: seq<seq<real>>, noise: string -> seq<real>, c: string)
    requires Rectangular(t) && k <= |items| && |axes| == |edges| && NoiseFits(noise, t.rows)
    requires c in t.columns && c !in axes && JitterFrom(t, items, k, axes, edges, noise).Ok?
    ensures JitterFrom(t, items, k, axes, edges, noise).value.columns[c] == t.columns[c]
    decreases |items| - k
  {
    if k < |items| {
      match JitterStep(items[k].0, items[k].1, axes, edges)
      case Ok(None) =>
        JitterKeepsOtherColumns(t, items, k + 1, axes, edges, noise, c);
      case Ok(Some(j)) =>
        JitterKeepsOtherColumns(Jittered(t, j.col, j.amp, j.mode, noise(j.col)), items, k + 1, axes, edges, noise, c);
    }
  }

  /** The `ranges` argument as the caller passed it: one `(lo, hi)` pair per axis, or None. */
  type Ranges = Option<seq<BinningUtils.Range>>

  /** numpy accepts `range=None` or one entry per dimension. */
  predicate RangesFit(ranges: Ranges, dims: nat)
  {
    ranges.None? || |ranges.value| == dims
  }

  /**
   * The histogram call: "numba" and "numpy" compute the same counts; "numpy"
   * first raises ValueError when `range` does not hold one entry per axis; any
   * other mode raises ValueError.
   */
  function HistogramBy(histMode: string, ranges: Ranges, rows: seq<seq<real>>, edges: seq<seq<real>>): (r: Result<seq<real>>)
    requires Fits(rows, edges)
    ensures histMode != "numba" && histMode != "numpy" ==> r == Err(ValueError)
    ensures histMode == "numpy" && !RangesFit(ranges, |edges|) ==> r == Err(ValueError)
    ensures histMode == "numba" || (histMode == "numpy" && RangesFit(ranges, |edges|)) ==> r == Kernel(rows, edges)
    ensures r.Ok? ==> r.value == Hist(rows, edges)
  {
    if histMode == "numba" then Kernel(rows, edges)
    else if histMode == "numpy" then
      if !RangesFit(ranges, |edges|) then Err(ValueError) else Kernel(rows, edges)
    else Err(ValueError)
  }

  lemma {:induction false} RowsFit(t: Table, axes: seq<string>, edges: seq<seq<real>>)
    requires Rectangular(t) && HasAll(t, axes) && |axes| == |edges|
    ensures Fits(RowsOf(t, axes), edges)
  {
  }

  /**
   * `bin_partition` on already normalised arguments (`skip_test=True`):
   * KeyError for a binned column the partition lacks, then the jitter errors,
   * then ValueError for an unknown `hist_mode` or, with "numpy", for a `ranges`
   * of another length than the axes, then the kernel's own errors.
   */
  function PartitionHistogram(part: Table, edges: seq<seq<real>>, axes: seq<string>, histMode: string, ranges: Ranges,
                              jitter: JitterArg, noise: string -> seq<real>): (r: Result<seq<real>>)
    requires Rectangular(part) && |axes| == |edges| && NoiseFits(noise, part.rows)
    ensures !HasAll(part, axes) ==> r == Err(KeyError)
    ensures r.Ok? ==> |r.value| == Size(CellShape(edges))
  {
    if !HasAll(part, axes) then Err(KeyError)
    else if jitter.NoJitter? then
      RowsFit(part, axes, edges);
      HistogramBy(histMode, ranges, RowsOf(part, axes), edges)
    else
      var sel := Selection(part, axes);
      var jittered :- JitterFrom(sel, JitterItems(jitter), 0, axes, edges, noise);
      RowsFit(jittered, axes, edges);
      HistogramBy(histMode, ranges, RowsOf(jittered, axes), edges)
  }

  /**
   * A `ranges` with another number of entries than axes: the "numpy" call
   * raises ValueError, while the "numba" call bins as usual.
   */
  lemma {:induction false} NumpyRangesChecked(part: Table, edges: seq<seq<real>>, axes: seq<string>, ranges: Ranges,
                                              noise: string -> seq<real>)
    requires Rectangular(part) && |axes| == |edges| && NoiseFits(noise, part.rows) && HasAll(part, axes)
    requires !RangesFit(ranges, |axes|)
    ensures PartitionHistogram(part, edges, axes, "numpy", ranges, NoJitter, noise) == Err(ValueError)
    ensures Fits(RowsOf(part, axes), edges)
    ensures PartitionHistogram(part, edges, axes, "numba", ranges, NoJitter, noise) == Kernel(RowsOf(part, axes), edges)
  {
    RowsFit(part, axes, edges);
  }

  /**
   * A bin count of -1 normalises to an empty edge array, which both kernels
   * reject with IndexError.
   */
  lemma {:induction false} NegativeCountRaises(rows: seq<seq<real>>)
    requires forall i :: 0 <= i < |rows| ==> |rows[i]| == 1
    ensures BinningUtils.Simplify(BinningUtils.BinsSeq([BinningUtils.Count(-1)]),
                                  BinningUtils.AxesSeq([BinningUtils.Name("x")]), Some([(0.0, 1.0)]))
            == Ok(([[]], ["x"]))
    ensures HistogramBy("numpy", None, rows, [[]]) == Err(IndexError)
    ensures HistogramBy("numba", None, rows, [[]]) == Err(IndexError)
  {
    var bs := [BinningUtils.Count(-1)];
    var labels := [BinningUtils.Name("x")];
    assert bs[0].Count? && bs[0].n + 1 == 0;
    assert !BinningUtils.AllTuples(bs) && BinningUtils.AllCounts(bs) && BinningUtils.AllNames(labels);
    assert BinningUtils.Linspace(0.0, 1.0, 0) == [];
    var ex := BinningUtils.Explode(bs, Some([(0.0, 1.0)]));
    assert ex.Ok? && |ex.value| == 1 && ex.value[0] == BinningUtils.Edges([]);
    assert ex.value == [BinningUtils.Edges([])];
    assert BinningUtils.EdgesOf([BinningUtils.Edges([])]) == [[]];
    assert BinningUtils.NamesOf(labels) == ["x"];
    var edges: seq<seq<real>> := [[]];
    assert |edges[0]| == 0;
  }

  /** Without jitter, a partition's histogram counts its own events, cell by cell. */
  lemma {:induction false} PartitionCounts(part: Table, edges: seq<seq<real>>, axes: seq<string>, histMode: string, ranges: Ranges,
                        noise: string -> seq<real>, c: nat)
    requires Rectangular(part) && |axes| == |edges| && NoiseFits(noise, part.rows)
    requires PartitionHistogram(part, edges, axes, histMode, ranges, NoJitter, noise).Ok?
    requires c < Size(CellShape(edges))
    ensures PartitionHistogram(part, edges, axes, histMode, ranges, NoJitter, noise).value[c]
            == |InCell(RowsOf(part, axes), edges, c)| as real
  {
    HistCounts(RowsOf(part, axes), edges, c);
  }

  /** Without jitter, a successful partition histogram is the histogram of the partition's own rows. */
  lemma {:induction false} NoJitterHistogram(part: Table, edges: seq<seq<real>>, axes: seq<string>, histMode: string, ranges: Ranges,
                          noise: string -> seq<real>)
    requires Rectangular(part) && |axes| == |edges| && NoiseFits(noise, part.rows)
    requires PartitionHistogram(part, edges, axes, histMode, ranges, NoJitter, noise).Ok?
    ensures HasAll(part, axes) && AllMonotone(edges) && Fits(RowsOf(part, axes), edges)
    ensures PartitionHistogram(part, edges, axes, histMode, ranges, NoJitter, noise).value == Hist(RowsOf(part, axes), edges)
  {
    RowsFit(part, axes, edges);
  }

  /** Jittering a list of columns is jittering each of them with the default amplitude and mode. */
  lemma {:induction false} ListIsDefaultDict(part: Table, edges: seq<seq<real>>, axes: seq<string>, histMode: string, ranges: Ranges,
                          cols: seq<string>, noise: string -> seq<real>)
    requires Rectangular(part) && |axes| == |edges| && NoiseFits(noise, part.rows)
    ensures PartitionHistogram(part, edges, axes, histMode, ranges, JitterList(cols), noise)
            == PartitionHistogram(part, edges, axes, histMode, ranges, JitterDict(FromKeys(cols)), noise)
  {
  }

  /** The jitter loop over a copy of the selection, applying each planned jitter as it goes. */
  method JitterSelection(sel: DataFrame, items: seq<(string, Option<JitterParams>)>,
                         axes: seq<string>, edges: seq<seq<real>>, noise: string -> seq<real>)
    returns (o: Outcome)
    requires sel.Valid() && |axes| == |edges| && NoiseFits(noise, sel.table.rows)
    modifies sel
    ensures sel.Valid()
    ensures JitterFrom(old(sel.table), items, 0, axes, edges, noise).Err? ==>
              o == Fail(JitterFrom(old(sel.table), items, 0, axes, edges, noise).error)
    ensures JitterFrom(old(sel.table), items, 0, axes, edges, noise).Ok? ==>
              o == Pass && sel.table == JitterFrom(old(sel.table), items, 0, axes, edges, noise).value
  {
    ghost var goal := JitterFrom(sel.table, items, 0, axes, edges, noise);
    for k := 0 to |items|
      invariant sel.Valid() && sel.table.rows == old(sel.table.rows)
      invariant JitterFrom(sel.table, items, k, axes, edges, noise) == goal
    {
      var step := JitterStep(items[k].0, items[k].1, axes, edges);
      if step.Err? {
        return Fail(step.error);
      }
      if step.value.Some? {
        var j := step.value.value;
        var _ := ApplyJitterOnColumn(sel, j.amp, j.col, j.mode, noise(j.col));
      }
    }
    return Pass;
  }

  /** `bin_partition` with `skip_test=True`, as `bin_dataframe` calls it. */
  method BinPartition(part: Table, edges: seq<seq<real>>, axes: seq<string>, histMode: string, ranges: Ranges,
                      jitter: JitterArg, returnEdges: bool, noise: string -> seq<real>)
    returns (r: Result<Binned>)
    requires Rectangular(part) && |axes| == |edges| && NoiseFits(noise, part.rows)
    ensures PartitionHistogram(part, edges, axes, histMode, ranges, jitter, noise).Err? ==>
              r == Err(PartitionHistogram(part, edges, axes, histMode, ranges, jitter, noise).error)
    ensures PartitionHistogram(part, edges, axes, histMode, ranges, jitter, noise).Ok? ==>
              r == Ok(if returnEdges then CountsAndEdges(PartitionHistogram(part, edges, axes, histMode, ranges, jitter, noise).value, edges)
                      else Counts(PartitionHistogram(part, edges, axes, histMode, ranges, jitter, noise).value))
  {
    for i := 0 to |axes|
      invariant forall j :: 0 <= j < i ==> axes[j] in part.columns
    {
      if axes[i] !in part.columns {
        return Err(KeyError);
      }
    }
    var rows: seq<seq<real>>;
    if jitter.NoJitter? {
      rows := RowsOf(part, axes);
    } else {
      var sel := new DataFrame(Selection(part, axes));
      var o := JitterSelection(sel, JitterItems(jitter), axes, edges, noise);
      if o.Fail? {
        return Err(o.error);
      }
      rows := RowsOf(sel.table, axes);
    }
    RowsFit(part, axes, edges);
    var h := HistogramBy(histMode, ranges, rows, edges);
    if h.Err? {
      return Err(h.error);
    }
    if returnEdges {
      return Ok(CountsAndEdges(h.value, edges));
    }
    return Ok(Counts(h.value));
  }

  /**
   * `bin_partition` as written with `skip_test=False`: the normaliser returns
   * two values, which the call unpacks into three names, so every successful
   * normalisation ends in ValueError.
   */
  function BinPartitionAsWritten(part: Table, bins: BinningUtils.BinsArg, axes: BinningUtils.AxesArg,
                                 ranges: Option<seq<BinningUtils.Range>>): (r: Result<Binned>)
  {
    match BinningUtils.Simplify(bins, axes, ranges)
    case Err(e) => Err(e)
    case Ok(_) => Err(ValueError)
  }

  /** The as-written call never produces a histogram. */
  lemma {:induction false} AsWrittenNeverBins(part: Table, bins: BinningUtils.BinsArg, axes: BinningUtils.AxesArg,
                           ranges: Option<seq<BinningUtils.Range>>)
    ensures BinPartitionAsWritten(part, bins, axes, ranges).Err?
    ensures BinningUtils.Simplify(bins, axes, ranges).Ok? ==> BinPartitionAsWritten(part, bins, axes, ranges) == Err(ValueError)
  {
  }

  /**
   * `bin_partition` with `skip_test=False` as intended: normalise, then bin
   * over the normalised edges and axis names.
   */
  function BinPartitionChecked(part: Table, bins: BinningUtils.BinsArg, axes: BinningUtils.AxesArg,
                               ranges: Ranges, histMode: string, jitter: JitterArg,
                               returnEdges: bool, noise: string -> seq<real>): (r: Result<Binned>)
    requires Rectangular(part) && NoiseFits(noise, part.rows)
    ensures BinningUtils.Simplify(bins, axes, ranges).Err? ==> r == Err(BinningUtils.Simplify(bins, axes, ranges).error)
    ensures r.Ok? ==> |r.value.h| == Size(CellShape(BinningUtils.Simplify(bins, axes, ranges).value.0))
  {
    match BinningUtils.Simplify(bins, axes, ranges)
    case Err(e) => Err(e)
    case Ok(p) =>
      BinningUtils.SimplifyShape(bins, axes, ranges);
      match PartitionHistogram(part, p.0, p.1, histMode, ranges, jitter, noise)
      case Err(e) => Err(e)
      case Ok(h) => Ok(if returnEdges then CountsAndEdges(h, p.0) else Counts(h))
  }
}
