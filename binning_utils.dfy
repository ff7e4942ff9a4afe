/**
 * sed/binning/utils.py: normalising the many accepted forms of a binning
 * request into one edge array and one axis name per dimension, and converting
 * between bin edges and bin centres.
 */
module BinningUtils {
  import opened Wrappers

  /** A number inside a tuple bin: Python int or float. */
  datatype Num = Int(i: int) | Float(x: real)

  function Real(n: Num): real
  {
    match n
    case Int(i) => i as real
    case Float(x) => x
  }

  /**
   * One per-dimension bin specification: a bin count, a tuple `(start, end,
   * count)` of any length, an array of edges, or anything else.
   */
  datatype Bin = Count(n: int) | TupleBin(items: seq<Num>) | Edges(e: seq<real>) | OtherBin

  /** An axis entry: a str, or some other object. */
  datatype Label = Name(s: string) | NotName

  /** The `bins` argument: an int, a dict (in iteration order), a sequence, or any other object. */
  datatype BinsArg =
    | BinsInt(n: int)
    | BinsDict(items: seq<(Label, Bin)>)
    | BinsSeq(bins: seq<Bin>)
    | BinsOther

  /** The `axes` argument: absent, one str, a sequence, or any other object. */
  datatype AxesArg = AxesNone | AxesStr(s: string) | AxesSeq(labels: seq<Label>) | AxesOther

  type Range = (real, real)

  predicate AllTuples(bs: seq<Bin>) { forall i :: 0 <= i < |bs| ==> bs[i].TupleBin? }
  predicate AllCounts(bs: seq<Bin>) { forall i :: 0 <= i < |bs| ==> bs[i].Count? }
  predicate AllEdges(bs: seq<Bin>) { forall i :: 0 <= i < |bs| ==> bs[i].Edges? }
  predicate AllNames(ls: seq<Label>) { forall i :: 0 <= i < |ls| ==> ls[i].Name? }

  /** `np.linspace(lo, hi, num, endpoint=True)`. */
  function Linspace(lo: real, hi: real, num: nat): (r: seq<real>)
    ensures |r| == num
  {
    seq(num, i requires 0 <= i < num => lo + (i as real) * LinStep(lo, hi, num))
  }

  /** The spacing of `np.linspace`. */
  function LinStep(lo: real, hi: real, num: nat): real
  {
    if num >= 2 then (hi - lo) / ((num - 1) as real) else 0.0
  }

  lemma {:induction false} DivTimes(a: real, d: real)
    requires d != 0.0
    ensures d * (a / d) == a
  {
  }

  lemma {:induction false} MulSucc(x: real, s: real)
    ensures (x + 1.0) * s == x * s + s
  {
  }

  /** The first value is `lo`, the last is `hi`, and consecutive values are equally spaced. */
  lemma {:induction false} LinspaceShape(lo: real, hi: real, num: nat)
    ensures num >= 1 ==> Linspace(lo, hi, num)[0] == lo
    ensures num >= 2 ==> Linspace(lo, hi, num)[num - 1] == hi
    ensures num >= 2 ==> Evenly(Linspace(lo, hi, num))
  {
    if num >= 2 {
      LinspaceLast(lo, hi, num);
      LinspaceEven(lo, hi, num);
    }
  }

  lemma {:induction false} LinspaceLast(lo: real, hi: real, num: nat)
    requires num >= 2
    ensures Linspace(lo, hi, num)[num - 1] == hi
  {
    var last: nat := num - 1;
    DivTimes(hi - lo, last as real);
    assert (last as real) * LinStep(lo, hi, num) == hi - lo;
  }

  lemma {:induction false} LinspaceEven(lo: real, hi: real, num: nat)
    requires num >= 2
    ensures Evenly(Linspace(lo, hi, num))
  {
    var r := Linspace(lo, hi, num);
    var step := LinStep(lo, hi, num);
    forall i | 0 < i < num - 1 ensures r[i] - r[i - 1] == r[i + 1] - r[i] {
      MulSucc((i - 1) as real, step);
      MulSucc(i as real, step);
      assert r[i] - r[i - 1] == step;
      assert r[i + 1] - r[i] == step;
    }
  }

  /** Consecutive values are equally spaced. */
  predicate Evenly(c: seq<real>)
  {
    forall i :: 0 < i < |c| - 1 ==> c[i] - c[i - 1] == c[i + 1] - c[i]
  }

  /** The bin a tuple's third item describes: an int is a count; a float is no valid bin. */
  function CountOf(n: Num): Bin
  {
    match n
    case Int(i) => Count(i)
    case Float(_) => OtherBin
  }

  /**
   * Bins that are all tuples: the first must have exactly three items
   * (AssertionError), none may have fewer (IndexError), and an empty list has
   * no first item (IndexError). The first two items become the range, the
   * third the bin.
   */
  function SplitTuples(bs: seq<Bin>): (r: Result<(seq<Range>, seq<Bin>)>)
    requires AllTuples(bs)
    ensures r.Ok? ==> |r.value.0| == |bs| == |r.value.1|
  {
    if |bs| == 0 then Err(IndexError)
    else if |bs[0].items| != 3 then Err(AssertionError)
    else if exists i :: 0 <= i < |bs| && |bs[i].items| < 3 then Err(IndexError)
    else Ok((seq(|bs|, i requires 0 <= i < |bs| => (Real(bs[i].items[0]), Real(bs[i].items[1]))),
             seq(|bs|, i requires 0 <= i < |bs| => CountOf(bs[i].items[2]))))
  }

  /**
   * Bins that are all counts: count `n` along dimension `i` becomes n+1 evenly
   * spaced edges over `ranges[i]`. Without ranges this is an AttributeError; the
   * first dimension with a negative sample count (ValueError) or no range
   * (IndexError) fails.
   */
  function Explode(bs: seq<Bin>, ranges: Option<seq<Range>>): (r: Result<seq<Bin>>)
    requires AllCounts(bs)
    ensures r.Ok? ==> |r.value| == |bs| && AllEdges(r.value)
  {
    if ranges.None? then Err(AttributeError)
    else
      var rs := ranges.value;
      if exists j :: 0 <= j < |bs| && j < |rs| && bs[j].n + 1 < 0 then Err(ValueError)
      else if |bs| > |rs| then Err(IndexError)
      else Ok(seq(|bs|, i requires 0 <= i < |bs| => Edges(Linspace(rs[i].0, rs[i].1, bs[i].n + 1))))
  }

  function EdgesOf(bs: seq<Bin>): (r: seq<seq<real>>)
    requires AllEdges(bs)
    ensures |r| == |bs| && forall i :: 0 <= i < |bs| ==> r[i] == bs[i].e
  {
    seq(|bs|, i requires 0 <= i < |bs| => bs[i].e)
  }

  function NamesOf(ls: seq<Label>): (r: seq<string>)
    requires AllNames(ls)
    ensures |r| == |ls| && forall i :: 0 <= i < |ls| ==> r[i] == ls[i].s
  {
    seq(|ls|, i requires 0 <= i < |ls| => ls[i].s)
  }

  /**
   * The normalised binning: a list of edge arrays and a list of axis names of
   * equal length, or the exception `_simplify_binning_arguments` raises.
   */
  function Simplify(bins: BinsArg, axes: AxesArg, ranges: Option<seq<Range>>)
    : (r: Result<(seq<seq<real>>, seq<string>)>)
  {
    var axes1 := if axes.AxesStr? then AxesSeq([Name(axes.s)]) else axes;
    var axes2 := if bins.BinsDict? then AxesSeq(seq(|bins.items|, i requires 0 <= i < |bins.items| => bins.items[i].0))
                 else axes1;
    var bins2 := if bins.BinsDict? then BinsSeq(seq(|bins.items|, i requires 0 <= i < |bins.items| => bins.items[i].1))
                 else bins;
    if bins2.BinsInt? && !axes2.AxesSeq? then Err(TypeError)
    else
      var bins3 := if bins2.BinsInt? then BinsSeq(seq(|axes2.labels|, _ => Count(bins2.n))) else bins2;
      if !bins3.BinsSeq? then Err(TypeError)
      else if axes2.AxesNone? then Err(AttributeError)
      else if !axes2.AxesSeq? || !AllNames(axes2.labels) then Err(TypeError)
      else
        var split :- if AllTuples(bins3.bins)
                      then (match SplitTuples(bins3.bins)
                            case Err(e) => Err(e)
                            case Ok(p) => Ok((p.1, Some(p.0))))
                      else Ok((bins3.bins, ranges));
        var bs :- if AllCounts(split.0) then Explode(split.0, split.1) else Ok(split.0);
        if !AllEdges(bs) then Err(TypeError)
        else if |axes2.labels| != |bs| then Err(AttributeError)
        else Ok((EdgesOf(bs), NamesOf(axes2.labels)))
  }

  /** The loop over `bins.items()` collecting keys as axes and values as bins, in iteration order. */
  method UnzipDict(items: seq<(Label, Bin)>) returns (keys: seq<Label>, vals: seq<Bin>)
    ensures keys == seq(|items|, i requires 0 <= i < |items| => items[i].0)
    ensures vals == seq(|items|, i requires 0 <= i < |items| => items[i].1)
  {
    keys, vals := [], [];
    for i := 0 to |items|
      invariant |keys| == i == |vals|
      invariant forall j :: 0 <= j < i ==> keys[j] == items[j].0 && vals[j] == items[j].1
    {
      keys := keys + [items[i].0];
      vals := vals + [items[i].1];
    }
  }

  /** The loop over tuple bins collecting `(tpl[0], tpl[1])` as ranges and `tpl[2]` as bins. */
  method SplitTupleBins(items: seq<Bin>) returns (r: Result<(seq<Range>, seq<Bin>)>)
    requires AllTuples(items)
    ensures r == SplitTuples(items)
  {
    if |items| == 0 {
      return Err(IndexError);
    }
    if |items[0].items| != 3 {
      return Err(AssertionError);
    }
    var newRanges: seq<Range> := [];
    var newBins: seq<Bin> := [];
    for i := 0 to |items|
      invariant |newRanges| == i == |newBins|
      invariant forall j :: 0 <= j < i ==> |items[j].items| >= 3
      invariant forall j :: 0 <= j < i ==>
                  newRanges[j] == (Real(items[j].items[0]), Real(items[j].items[1]))
                  && newBins[j] == CountOf(items[j].items[2])
    {
      var tpl := items[i].items;
      if |tpl| < 3 {
        return Err(IndexError);
      }
      newRanges := newRanges + [(Real(tpl[0]), Real(tpl[1]))];
      newBins := newBins + [CountOf(tpl[2])];
    }
    assert newRanges == seq(|items|, i requires 0 <= i < |items| => (Real(items[i].items[0]), Real(items[i].items[1])));
    assert newBins == seq(|items|, i requires 0 <= i < |items| => CountOf(items[i].items[2]));
    return Ok((newRanges, newBins));
  }

  /** The loop turning bin counts into `np.linspace` edge arrays over their ranges. */
  method ExplodeCounts(items: seq<Bin>, ranges: Option<seq<Range>>) returns (r: Result<seq<Bin>>)
    requires AllCounts(items)
    ensures r == Explode(items, ranges)
  {
    if ranges.None? {
      return Err(AttributeError);
    }
    var rs := ranges.value;
    var exploded: seq<Bin> := [];
    for i := 0 to |items|
      invariant |exploded| == i
      invariant forall j :: 0 <= j < i ==> j < |rs| && items[j].n + 1 >= 0
      invariant forall j :: 0 <= j < i ==> j < |rs| && exploded[j] == Edges(Linspace(rs[j].0, rs[j].1, items[j].n + 1))
    {
      if i >= |rs| {
        assert !exists j :: 0 <= j < |items| && j < |rs| && items[j].n + 1 < 0;
        return Err(IndexError);
      }
      if items[i].n + 1 < 0 {
        assert 0 <= i < |items| && i < |rs| && items[i].n + 1 < 0;
        return Err(ValueError);
      }
      var e := Linspace(rs[i].0, rs[i].1, items[i].n + 1);
      exploded := exploded + [Edges(e)];
    }
    assert !exists j :: 0 <= j < |items| && j < |rs| && items[j].n + 1 < 0;
    if |items| > 0 {
      assert items[|items| - 1].n + 1 >= 0;
    }
    assert |items| <= |rs|;
    assert exploded == seq(|items|, i requires 0 <= i < |items| => Edges(Linspace(rs[i].0, rs[i].1, items[i].n + 1)));
    return Ok(exploded);
  }

  /**
   * `_simplify_binning_arguments(bins, axes, ranges)`: rebinds the arguments
   * step by step; the dict, tuple and count conversions are the loops above.
   */
  method SimplifyBinningArguments(bins: BinsArg, axes: AxesArg, ranges: Option<seq<Range>>)
    returns (r: Result<(seq<seq<real>>, seq<string>)>)
    ensures r == Simplify(bins, axes, ranges)
  {
    var ax := axes;
    if ax.AxesStr? {
      ax := AxesSeq([Name(ax.s)]);
    }
    var bs := bins;
    if bs.BinsDict? {
      var keys, vals := UnzipDict(bins.items);
      ax := AxesSeq(keys);
      bs := BinsSeq(vals);
    }
    if bs.BinsInt? {
      if !ax.AxesSeq? {
        return Err(TypeError);
      }
      bs := BinsSeq(seq(|ax.labels|, _ => Count(bins.n)));
    }
    if !bs.BinsSeq? {
      return Err(TypeError);
    }
    if ax.AxesNone? {
      return Err(AttributeError);
    }
    if !ax.AxesSeq? || !AllNames(ax.labels) {
      return Err(TypeError);
    }
    var items := bs.bins;
    var rs := ranges;
    if AllTuples(items) {
      var split := SplitTupleBins(items);
      if split.Err? {
        return Err(split.error);
      }
      rs := Some(split.value.0);
      items := split.value.1;
    }
    if AllCounts(items) {
      var exploded := ExplodeCounts(items, rs);
      if exploded.Err? {
        return Err(exploded.error);
      }
      items := exploded.value;
    }
    if !AllEdges(items) {
      return Err(TypeError);
    }
    if |ax.labels| != |items| {
      return Err(AttributeError);
    }
    return Ok((EdgesOf(items), NamesOf(ax.labels)));
  }

  /** A single str `axes` is the one-element list of it. */
  lemma {:induction false} StrAxesIsList(bins: BinsArg, s: string, ranges: Option<seq<Range>>)
    ensures Simplify(bins, AxesStr(s), ranges) == Simplify(bins, AxesSeq([Name(s)]), ranges)
  {
  }

  /** A dict gives its keys as the axes and its values as the bins, in order, whatever `axes` was passed. */
  lemma {:induction false} DictGivesAxes(items: seq<(Label, Bin)>, axes: AxesArg, ranges: Option<seq<Range>>)
    ensures Simplify(BinsDict(items), axes, ranges)
         == Simplify(BinsSeq(seq(|items|, i requires 0 <= i < |items| => items[i].1)),
                     AxesSeq(seq(|items|, i requires 0 <= i < |items| => items[i].0)), ranges)
  {
  }

  /** One int count is repeated once per axis; without a sized `axes` its `len` raises TypeError. */
  lemma {:induction false} IntRepeated(n: int, axes: AxesArg, ranges: Option<seq<Range>>)
    ensures axes.AxesNone? || axes.AxesOther? ==> Simplify(BinsInt(n), axes, ranges) == Err(TypeError)
    ensures axes.AxesSeq? ==>
              Simplify(BinsInt(n), axes, ranges)
              == Simplify(BinsSeq(seq(|axes.labels|, _ => Count(n))), axes, ranges)
  {
  }

  /** Missing axes raise AttributeError; an axes entry that is not a str raises TypeError. */
  lemma {:induction false} AxesErrors(bins: seq<Bin>, labels: seq<Label>, ranges: Option<seq<Range>>)
    ensures Simplify(BinsSeq(bins), AxesNone, ranges) == Err(AttributeError)
    ensures !AllNames(labels) ==> Simplify(BinsSeq(bins), AxesSeq(labels), ranges) == Err(TypeError)
  {
  }

  /** Any bins argument that is no int, dict or sequence raises TypeError. */
  lemma {:induction false} OtherBinsRejected(axes: AxesArg, ranges: Option<seq<Range>>)
    ensures Simplify(BinsOther, axes, ranges) == Err(TypeError)
  {
  }

  /**
   * Tuples `(start, end, count)` are the counts over the ranges they carry,
   * which replace any `ranges` passed.
   */
  lemma {:induction false} TuplesGiveRanges(ts: seq<(Num, Num, int)>, labels: seq<Label>, ranges: Option<seq<Range>>)
    requires |ts| > 0
    ensures Simplify(BinsSeq(seq(|ts|, i requires 0 <= i < |ts| => TupleBin([ts[i].0, ts[i].1, Int(ts[i].2)]))),
                     AxesSeq(labels), ranges)
         == Simplify(BinsSeq(seq(|ts|, i requires 0 <= i < |ts| => Count(ts[i].2))), AxesSeq(labels),
                     Some(seq(|ts|, i requires 0 <= i < |ts| => (Real(ts[i].0), Real(ts[i].1)))))
  {
    var tuples := seq(|ts|, i requires 0 <= i < |ts| => TupleBin([ts[i].0, ts[i].1, Int(ts[i].2)]));
    var counts := seq(|ts|, i requires 0 <= i < |ts| => Count(ts[i].2));
    assert !AllTuples(counts) by { assert !counts[0].TupleBin?; }
    assert AllTuples(tuples) && AllCounts(counts);
    assert SplitTuples(tuples).Ok?;
    assert SplitTuples(tuples).value.1 == counts;
    assert SplitTuples(tuples).value.0 == seq(|ts|, i requires 0 <= i < |ts| => (Real(ts[i].0), Real(ts[i].1)));
  }

  /**
   * All-count bins need ranges (AttributeError otherwise); count n along axis i
   * becomes the n+1 edges of `np.linspace` over `ranges[i]`.
   */
  lemma {:induction false} CountsBecomeEdges(ns: seq<int>, labels: seq<Label>, ranges: Option<seq<Range>>)
    requires |ns| > 0 && AllNames(labels)
    ensures ranges.None? ==>
              Simplify(BinsSeq(seq(|ns|, i requires 0 <= i < |ns| => Count(ns[i]))), AxesSeq(labels), ranges)
              == Err(AttributeError)
    ensures ranges.Some? && |ranges.value| >= |ns| && |labels| == |ns| && (forall i :: 0 <= i < |ns| ==> ns[i] >= -1) ==>
              Simplify(BinsSeq(seq(|ns|, i requires 0 <= i < |ns| => Count(ns[i]))), AxesSeq(labels), ranges)
              == Ok((seq(|ns|, i requires 0 <= i < |ns| => Linspace(ranges.value[i].0, ranges.value[i].1, ns[i] + 1)),
                     NamesOf(labels)))
  {
    var counts := seq(|ns|, i requires 0 <= i < |ns| => Count(ns[i]));
    assert !AllTuples(counts) by { assert !counts[0].TupleBin?; }
    if ranges.Some? && |ranges.value| >= |ns| && |labels| == |ns| && (forall i :: 0 <= i < |ns| ==> ns[i] >= -1) {
      var ex := Explode(counts, ranges);
      assert ex.Ok?;
      assert EdgesOf(ex.value)
          == seq(|ns|, i requires 0 <= i < |ns| => Linspace(ranges.value[i].0, ranges.value[i].1, ns[i] + 1));
    }
  }

  /** Mixed bins raise TypeError, and edge arrays and axes of different lengths raise AttributeError. */
  lemma {:induction false} ShapeErrors(bs: seq<Bin>, labels: seq<Label>, ranges: Option<seq<Range>>)
    requires AllNames(labels) && |bs| > 0
    ensures !AllTuples(bs) && !AllCounts(bs) && !AllEdges(bs) ==>
              Simplify(BinsSeq(bs), AxesSeq(labels), ranges) == Err(TypeError)
    ensures AllEdges(bs) && |bs| != |labels| ==>
              Simplify(BinsSeq(bs), AxesSeq(labels), ranges) == Err(AttributeError)
  {
    if AllEdges(bs) {
      assert !bs[0].TupleBin? && !bs[0].Count?;
    }
  }

  /** A successful normalisation has one edge array per axis name, and at least one. */
  lemma {:induction false} SimplifyShape(bins: BinsArg, axes: AxesArg, ranges: Option<seq<Range>>)
    requires Simplify(bins, axes, ranges).Ok?
    ensures |Simplify(bins, axes, ranges).value.0| == |Simplify(bins, axes, ranges).value.1| >= 1
  {
  }

  /** Normalising an already normal binning (edge arrays and axis names) returns it unchanged. */
  lemma {:induction false} SimplifyIdempotent(bins: BinsArg, axes: AxesArg, ranges: Option<seq<Range>>, ranges': Option<seq<Range>>)
    requires Simplify(bins, axes, ranges).Ok?
    ensures
      var (es, ns) := Simplify(bins, axes, ranges).value;
      Simplify(BinsSeq(seq(|es|, i requires 0 <= i < |es| => Edges(es[i]))),
               AxesSeq(seq(|ns|, i requires 0 <= i < |ns| => Name(ns[i]))), ranges')
      == Ok((es, ns))
  {
    SimplifyShape(bins, axes, ranges);
    var (es, ns) := Simplify(bins, axes, ranges).value;
    var bs := seq(|es|, i requires 0 <= i < |es| => Edges(es[i]));
    var ls := seq(|ns|, i requires 0 <= i < |ns| => Name(ns[i]));
    assert !AllTuples(bs) && !AllCounts(bs) by { assert bs[0].Edges?; }
    assert EdgesOf(bs) == es;
    assert NamesOf(ls) == ns;
  }

  /** `bin_edges_to_bin_centers`: the midpoint of each pair of adjacent edges. */
  function BinEdgesToBinCenters(e: seq<real>): (c: seq<real>)
    ensures |c| == if |e| == 0 then 0 else |e| - 1
  {
    if |e| == 0 then [] else seq(|e| - 1, i requires 0 <= i < |e| - 1 => (e[i + 1] + e[i]) / 2.0)
  }

  /** Centre i lies inside bin i, equally far from both of its edges. */
  lemma {:induction false} CenterInBin(e: seq<real>, i: nat)
    requires i + 1 < |e|
    ensures BinEdgesToBinCenters(e)[i] - e[i] == e[i + 1] - BinEdgesToBinCenters(e)[i]
    ensures e[i] <= e[i + 1] ==> e[i] <= BinEdgesToBinCenters(e)[i] <= e[i + 1]
  {
  }

  /**
   * `bin_centers_to_bin_edges`: midpoints between centres, plus an outer edge
   * half a spacing beyond each end; fewer than two centres raise IndexError.
   */
  function BinCentersToBinEdges(c: seq<real>): (r: Result<seq<real>>)
    ensures r.Err? <==> |c| < 2
    ensures r.Err? ==> r.error == IndexError
    ensures r.Ok? ==> |r.value| == |c| + 1
  {
    if |c| < 2 then Err(IndexError)
    else
      var n := |c|;
      var mids := seq(n - 1, i requires 0 <= i < n - 1 => (c[i + 1] + c[i]) / 2.0);
      Ok([c[0] - (c[1] - c[0]) / 2.0] + mids + [c[n - 1] + (c[n - 1] - c[n - 2]) / 2.0])
  }

  /**
   * Centres to edges and back returns the centres exactly when they are evenly
   * spaced (the two end centres always come back).
   */
  lemma {:induction false} CentersRoundTrip(c: seq<real>)
    requires |c| >= 2
    ensures |BinEdgesToBinCenters(BinCentersToBinEdges(c).value)| == |c|
    ensures BinEdgesToBinCenters(BinCentersToBinEdges(c).value)[0] == c[0]
    ensures BinEdgesToBinCenters(BinCentersToBinEdges(c).value)[|c| - 1] == c[|c| - 1]
    ensures BinEdgesToBinCenters(BinCentersToBinEdges(c).value) == c <==> Evenly(c)
  {
    CenterOfEdges(c, 0);
    CenterOfEdges(c, |c| - 1);
    if Evenly(c) {
      EvenCentersReturn(c);
    }
    if BinEdgesToBinCenters(BinCentersToBinEdges(c).value) == c {
      ReturningCentersAreEven(c);
    }
  }

  /** Centres that survive the round trip are evenly spaced. */
  lemma {:induction false} ReturningCentersAreEven(c: seq<real>)
    requires |c| >= 2 && BinEdgesToBinCenters(BinCentersToBinEdges(c).value) == c
    ensures Evenly(c)
  {
    forall i | 0 < i < |c| - 1 ensures c[i] - c[i - 1] == c[i + 1] - c[i] {
      CenterOfEdges(c, i);
      Smoothed(c[i - 1], c[i], c[i + 1]);
    }
  }

  /** A value is its own smoothed average only when it lies midway between its neighbours. */
  lemma {:induction false} Smoothed(a: real, b: real, d: real)
    ensures (a + 2.0 * b + d) / 4.0 == b <==> b - a == d - b
  {
  }

  lemma {:induction false} EvenCentersReturn(c: seq<real>)
    requires |c| >= 2 && Evenly(c)
    ensures BinEdgesToBinCenters(BinCentersToBinEdges(c).value) == c
  {
    var back := BinEdgesToBinCenters(BinCentersToBinEdges(c).value);
    forall i | 0 <= i < |c| ensures back[i] == c[i] {
      CenterOfEdges(c, i);
      if 0 < i < |c| - 1 {
        assert c[i] - c[i - 1] == c[i + 1] - c[i];
      }
    }
    CenterOfEdges(c, 0);
  }

  /** The centre of edge pair i, after centres to edges. */
  lemma {:induction false} CenterOfEdges(c: seq<real>, i: nat)
    requires |c| >= 2 && i < |c|
    ensures |BinEdgesToBinCenters(BinCentersToBinEdges(c).value)| == |c|
    ensures BinEdgesToBinCenters(BinCentersToBinEdges(c).value)[i]
         == if i == 0 then c[0]
            else if i == |c| - 1 then c[i]
            else (c[i - 1] + 2.0 * c[i] + c[i + 1]) / 4.0
  {
    var e := BinCentersToBinEdges(c).value;
    var back := BinEdgesToBinCenters(e);
    assert back[i] == (e[i + 1] + e[i]) / 2.0;
    EdgeAt(c, i);
    EdgeAt(c, i + 1);
  }

  /** Edge k of `bin_centers_to_bin_edges`: an outer edge, or the midpoint of centres k-1 and k. */
  lemma {:induction false} EdgeAt(c: seq<real>, k: nat)
    requires |c| >= 2 && k <= |c|
    ensures |BinCentersToBinEdges(c).value| == |c| + 1
    ensures BinCentersToBinEdges(c).value[k]
         == if k == 0 then c[0] - (c[1] - c[0]) / 2.0
            else if k == |c| then c[|c| - 1] + (c[|c| - 1] - c[|c| - 2]) / 2.0
            else (c[k] + c[k - 1]) / 2.0
  {
    var n := |c|;
    var mids := seq(n - 1, j requires 0 <= j < n - 1 => (c[j + 1] + c[j]) / 2.0);
    var e := BinCentersToBinEdges(c).value;
    assert e == [c[0] - (c[1] - c[0]) / 2.0] + mids + [c[n - 1] + (c[n - 1] - c[n - 2]) / 2.0];
    if 0 < k < n {
      assert e[k] == mids[k - 1];
    }
  }

  /** Evenly spaced edges (at least three) go to centres and back unchanged. */
  lemma {:induction false} EdgesRoundTrip(e: seq<real>)
    requires |e| >= 3 && Evenly(e)
    ensures BinCentersToBinEdges(BinEdgesToBinCenters(e)) == Ok(e)
  {
    var back := BinCentersToBinEdges(BinEdgesToBinCenters(e)).value;
    forall i | 0 <= i < |e| ensures back[i] == e[i] {
      EdgeOfCenters(e, i);
    }
    EdgeOfCenters(e, 0);
    assert back == e;
    assert BinCentersToBinEdges(BinEdgesToBinCenters(e)).Ok?;
  }

  /** Edge i after edges to centres and back, for evenly spaced edges. */
  lemma {:induction false} EdgeOfCenters(e: seq<real>, i: nat)
    requires |e| >= 3 && Evenly(e) && i < |e|
    ensures |BinCentersToBinEdges(BinEdgesToBinCenters(e)).value| == |e|
    ensures BinCentersToBinEdges(BinEdgesToBinCenters(e)).value[i] == e[i]
  {
    var c := BinEdgesToBinCenters(e);
    var n := |e|;
    EdgeAt(c, i);
    if i == 0 {
      OuterEdge(e[0], e[1], e[2], c[0], c[1]);
    } else if i == n - 1 {
      OuterEdge(e[n - 1], e[n - 2], e[n - 3], c[n - 2], c[n - 3]);
    } else {
      assert e[i] - e[i - 1] == e[i + 1] - e[i];
    }
  }

  /** Half a spacing beyond the end centre of evenly spaced edges a, b, d is the end edge a. */
  lemma OuterEdge(a: real, b: real, d: real, c0: real, c1: real)
    requires c0 == (b + a) / 2.0 && c1 == (d + b) / 2.0 && b - a == d - b
    ensures c0 - (c1 - c0) / 2.0 == a && c0 + (c0 - c1) / 2.0 == a
  {
  }
}
