/**
 * Combining per-partition histograms in `bin_dataframe`
 * (sed/binning/binning.py) and `_arraysum` (sed/binning/utils.py): the three
 * combination modes, the split of the first axis into one slab per core, and
 * stacking per-partition results along a new last axis. Every histogram here is
 * the flat row-major array of one result; all of them have the same shape.
 */
module Reduction {
  import opened Wrappers
  import opened Histogram

  predicate SameLength(hs: seq<seq<real>>, n: nat)
  {
    forall p :: 0 <= p < |hs| ==> |hs[p]| == n
  }

  /** The reference sum: cell `k` added up over all results, in order. */
  function SumAt(hs: seq<seq<real>>, k: nat): real
    requires forall p :: 0 <= p < |hs| ==> k < |hs[p]|
    decreases |hs|
  {
    if |hs| == 0 then 0.0 else SumAt(hs[..|hs| - 1], k) + hs[|hs| - 1][k]
  }

  /** The combined histogram: each cell the sum of that cell over all results. */
  function SumAll(hs: seq<seq<real>>, n: nat): (s: seq<real>)
    requires SameLength(hs, n)
    ensures |s| == n && forall k :: 0 <= k < n ==> s[k] == SumAt(hs, k)
  {
    seq(n, k requires 0 <= k < n => SumAt(hs, k))
  }

  /** Summing two runs of results one after the other is adding their sums. */
  lemma {:induction false} SumAtAppend(a: seq<seq<real>>, b: seq<seq<real>>, k: nat)
    requires (forall p :: 0 <= p < |a| ==> k < |a[p]|) && (forall p :: 0 <= p < |b| ==> k < |b[p]|)
    ensures forall p :: 0 <= p < |a + b| ==> k < |(a + b)[p]|
    ensures SumAt(a + b, k) == SumAt(a, k) + SumAt(b, k)
    decreases |b|
  {
    assert forall p :: 0 <= p < |a + b| ==> k < |(a + b)[p]| by {
      forall p | 0 <= p < |a + b| ensures k < |(a + b)[p]| {
        if p >= |a| { assert (a + b)[p] == b[p - |a|]; }
      }
    }
    if |b| == 0 {
      assert a + b == a;
    } else {
      var n := |b| - 1;
      SumAtAppend(a, b[..n], k);
      assert (a + b)[..|a + b| - 1] == a + b[..n];
      assert (a + b)[|a + b| - 1] == b[n];
    }
  }

  /** `_arraysum`: the elementwise sum of two arrays of one shape. */
  function ArraySum(a: seq<real>, b: seq<real>): (r: seq<real>)
    requires |a| == |b|
    ensures r == Add(a, b)
  {
    Add(a, b)
  }

  /** `reduce(_arraysum, hs)`: the first result, plus each later one in turn. */
  function Reduce(hs: seq<seq<real>>): (r: seq<real>)
    requires |hs| > 0 && SameLength(hs, |hs[0]|)
    ensures |r| == |hs[0]|
    decreases |hs|
  {
    if |hs| == 1 then hs[0] else ArraySum(Reduce(hs[..|hs| - 1]), hs[|hs| - 1])
  }

  /** Reducing with `_arraysum` computes the combined histogram. */
  lemma {:induction false} ReduceIsSum(hs: seq<seq<real>>)
    requires |hs| > 0 && SameLength(hs, |hs[0]|)
    ensures Reduce(hs) == SumAll(hs, |hs[0]|)
    decreases |hs|
  {
    var n := |hs[0]|;
    if |hs| == 1 {
      forall k | 0 <= k < n ensures Reduce(hs)[k] == SumAt(hs, k) {
        assert SumAt(hs, k) == SumAt(hs[..0], k) + hs[0][k];
      }
    } else {
      var init := hs[..|hs| - 1];
      ReduceIsSum(init);
      forall k | 0 <= k < n ensures Reduce(hs)[k] == SumAt(hs, k) {
        assert SumAt(hs, k) == SumAt(init, k) + hs[|hs| - 1][k];
      }
    }
  }

  lemma {:induction false} SumAllStep(hs: seq<seq<real>>, n: nat, p: nat)
    requires SameLength(hs, n) && p < |hs|
    ensures SumAll(hs[..p + 1], n) == Add(SumAll(hs[..p], n), hs[p])
  {
    forall k | 0 <= k < n ensures SumAll(hs[..p + 1], n)[k] == SumAll(hs[..p], n)[k] + hs[p][k] {
      assert hs[..p + 1][..p] == hs[..p];
    }
  }

  /** The sum of all results is the sum of all but the last, plus the last. */
  lemma {:induction false} SumAllLast(hs: seq<seq<real>>, n: nat)
    requires SameLength(hs, n) && |hs| > 0
    ensures SumAll(hs, n) == Add(SumAll(hs[..|hs| - 1], n), hs[|hs| - 1])
  {
    SumAllStep(hs, n, |hs| - 1);
    assert hs[..|hs|] == hs;
  }

  /**
   * The legacy accumulation `r = zeros_like(hs[0]); for h in hs: r += h`
   * (also the final pass over the batch sums, where `nan_to_num` changes
   * nothing because the model has no NaN).
   */
  method AccumulateLegacy(hs: seq<seq<real>>) returns (r: seq<real>)
    requires |hs| > 0 && SameLength(hs, |hs[0]|)
    ensures r == SumAll(hs, |hs[0]|)
  {
    var n := |hs[0]|;
    r := Zeros(n);
    assert r == SumAll(hs[..0], n);
    for p := 0 to |hs|
      invariant r == SumAll(hs[..p], n)
    {
      SumAllStep(hs, n, p);
      r := ArraySum(r, hs[p]);
    }
    assert hs[..|hs|] == hs;
  }

  /** `full[lo:lo + len(part)] += part`, in place. */
  method AddInto(full: array<real>, lo: nat, part: seq<real>)
    requires lo + |part| <= full.Length
    modifies full
    ensures forall k :: 0 <= k < full.Length ==>
              full[k] == if lo <= k < lo + |part| then old(full[k]) + part[k - lo] else old(full[k])
  {
    for i := 0 to |part|
      invariant forall k :: 0 <= k < full.Length ==>
                  full[k] == if lo <= k < lo + i then old(full[k]) + part[k - lo] else old(full[k])
    {
      full[lo + i] := full[lo + i] + part[i];
    }
  }

  /** The lean mode: the batch's results reduced, then added to the running total. */
  method CombineLean(full: array<real>, coreResults: seq<seq<real>>)
    requires |coreResults| > 0 && SameLength(coreResults, full.Length)
    modifies full
    ensures full[..] == Add(old(full[..]), SumAll(coreResults, full.Length))
  {
    var partitionResult := Reduce(coreResults);
    ReduceIsSum(coreResults);
    AddInto(full, 0, partitionResult);
  }

  /** The first row of core `j`'s slab of an axis of length `n`: `int(j * n / cores)`. */
  function SlabLo(j: nat, n: nat, cores: nat): nat
    requires cores > 0
  {
    j * n / cores
  }

  lemma {:induction false} MulLe(a: nat, b: nat, w: nat)
    requires a <= b
    ensures a * w <= b * w
  {
  }

  /** The slabs start at 0, end at `n`, and never go backwards: they tile the axis in order. */
  lemma {:induction false} SlabBounds(j: nat, k: nat, n: nat, cores: nat)
    requires cores > 0 && j <= k
    ensures SlabLo(0, n, cores) == 0 && SlabLo(cores, n, cores) == n
    ensures SlabLo(j, n, cores) <= SlabLo(k, n, cores)
    ensures k <= cores ==> SlabLo(k, n, cores) <= n
  {
    MulLe(j, k, n);
    DivLe(j * n, k * n, cores);
    DivExact(n, cores);
    if k <= cores {
      MulLe(k, cores, n);
      DivLe(k * n, cores * n, cores);
    }
  }

  lemma {:induction false} DivLe(a: nat, b: nat, c: nat)
    requires c > 0 && a <= b
    ensures a / c <= b / c
  {
    var q1, q2 := a / c, b / c;
    if q1 > q2 {
      MulLe(q2 + 1, q1, c);
    }
  }

  lemma {:induction false} DivExact(n: nat, c: nat)
    requires c > 0
    ensures c * n / c == n
  {
    var q := c * n / c;
    if q < n {
      MulLe(q + 1, n, c);
    } else if q > n {
      MulLe(n + 1, q, c);
    }
  }

  /** Every row of the axis belongs to exactly one core's slab. */
  lemma {:induction false} SlabOf(r: nat, n: nat, cores: nat, j: nat) returns (s: nat)
    requires cores > 0 && r < n && j < cores && r < SlabLo(j + 1, n, cores)
    ensures s <= j && SlabLo(s, n, cores) <= r < SlabLo(s + 1, n, cores)
    ensures forall t :: 0 <= t < cores && SlabLo(t, n, cores) <= r < SlabLo(t + 1, n, cores) ==> t == s
    decreases j
  {
    SlabBounds(0, 0, n, cores);
    if SlabLo(j, n, cores) <= r {
      s := j;
    } else {
      s := SlabOf(r, n, cores, j - 1);
    }
    forall t | 0 <= t < cores && SlabLo(t, n, cores) <= r < SlabLo(t + 1, n, cores) ensures t == s {
      if t < s { SlabBounds(t + 1, s, n, cores); }
      if t > s { SlabBounds(s + 1, t, n, cores); }
    }
  }

  /** The loop collecting `core_result[lo:hi]` of every result. */
  method SliceEach(hs: seq<seq<real>>, lo: nat, hi: nat) returns (parts: seq<seq<real>>)
    requires lo <= hi && forall p :: 0 <= p < |hs| ==> hi <= |hs[p]|
    ensures |parts| == |hs| && forall p :: 0 <= p < |hs| ==> parts[p] == hs[p][lo..hi]
  {
    parts := [];
    for p := 0 to |hs|
      invariant |parts| == p && forall q :: 0 <= q < p ==> parts[q] == hs[q][lo..hi]
    {
      parts := parts + [hs[p][lo..hi]];
    }
  }

  /** `c` is the combined slab of the results starting at flat position `lo`. */
  predicate SlabSum(c: seq<real>, hs: seq<seq<real>>, lo: nat, hi: nat)
    requires lo <= hi && forall p :: 0 <= p < |hs| ==> hi <= |hs[p]|
  {
    |c| == hi - lo && forall i :: 0 <= i < |c| ==> c[i] == SumAt(hs, lo + i)
  }

  /** `c` is core `q`'s combined slab of the results. */
  predicate SlabReady(c: seq<real>, hs: seq<seq<real>>, q: nat, rows: nat, width: nat, cores: nat)
    requires cores > 0 && SameLength(hs, rows * width)
  {
    SlabLo(q, rows, cores) * width <= SlabLo(q + 1, rows, cores) * width <= rows * width &&
    SlabSum(c, hs, SlabLo(q, rows, cores) * width, SlabLo(q + 1, rows, cores) * width)
  }

  lemma {:induction false} SlicedSum(hs: seq<seq<real>>, parts: seq<seq<real>>, lo: nat, hi: nat, i: nat)
    requires lo <= hi && (forall p :: 0 <= p < |hs| ==> hi <= |hs[p]|) && lo + i < hi
    requires |parts| == |hs| && forall p :: 0 <= p < |hs| ==> parts[p] == hs[p][lo..hi]
    ensures SumAt(parts, i) == SumAt(hs, lo + i)
    decreases |hs|
  {
    if |hs| > 0 {
      SlicedSum(hs[..|hs| - 1], parts[..|parts| - 1], lo, hi, i);
    }
  }

  /** One core's share of the fast mode: the batch's results restricted to its slab, then reduced. */
  method CombineSlab(coreResults: seq<seq<real>>, lo: nat, hi: nat) returns (c: seq<real>)
    requires |coreResults| > 0 && lo <= hi && forall p :: 0 <= p < |coreResults| ==> hi <= |coreResults[p]|
    requires SameLength(coreResults, |coreResults[0]|)
    ensures SlabSum(c, coreResults, lo, hi)
  {
    var parts := SliceEach(coreResults, lo, hi);
    c := Reduce(parts);
    ReduceIsSum(parts);
    forall i | 0 <= i < |c| ensures c[i] == SumAt(coreResults, lo + i) {
      SlicedSum(coreResults, parts, lo, hi, i);
    }
  }

  /** The first loop of the fast mode: one combined slab per core. */
  method CombineSlabs(coreResults: seq<seq<real>>, rows: nat, width: nat, cores: nat)
    returns (combineResults: seq<seq<real>>)
    requires cores > 0 && |coreResults| > 0 && SameLength(coreResults, rows * width)
    ensures |combineResults| == cores
    ensures forall q :: 0 <= q < cores ==> SlabReady(combineResults[q], coreResults, q, rows, width, cores)
  {
    combineResults := [];
    for j := 0 to cores
      invariant |combineResults| == j
      invariant forall q :: 0 <= q < j ==> SlabReady(combineResults[q], coreResults, q, rows, width, cores)
    {
      var lo, hi := SlabLo(j, rows, cores) * width, SlabLo(j + 1, rows, cores) * width;
      SlabBounds(j, j + 1, rows, cores);
      MulLe(SlabLo(j, rows, cores), SlabLo(j + 1, rows, cores), width);
      MulLe(SlabLo(j + 1, rows, cores), rows, width);
      var c := CombineSlab(coreResults, lo, hi);
      combineResults := combineResults + [c];
    }
  }

  /** Adding one core's combined slab extends the finished prefix of the total by that slab. */
  method AddSlab(full: array<real>, combined: seq<real>, coreResults: seq<seq<real>>,
                 j: nat, rows: nat, width: nat, cores: nat, ghost before: seq<real>)
    requires cores > 0 && full.Length == rows * width && SameLength(coreResults, full.Length)
    requires |before| == full.Length && SlabReady(combined, coreResults, j, rows, width, cores)
    requires forall k :: 0 <= k < full.Length ==>
               full[k] == if k < SlabLo(j, rows, cores) * width then before[k] + SumAt(coreResults, k) else before[k]
    modifies full
    ensures forall k :: 0 <= k < full.Length ==>
              full[k] == if k < SlabLo(j + 1, rows, cores) * width then before[k] + SumAt(coreResults, k) else before[k]
  {
    var lo := SlabLo(j, rows, cores) * width;
    AddInto(full, lo, combined);
    forall k | lo <= k < lo + |combined| ensures combined[k - lo] == SumAt(coreResults, k) {
      assert combined[k - lo] == SumAt(coreResults, lo + (k - lo));
    }
  }

  /**
   * The fast mode: each of `cores` slabs along the first axis (`rows` long,
   * each row `width` cells) is reduced over the batch's results on its own,
   * then added into its slab of the running total.
   */
  method CombineFast(full: array<real>, coreResults: seq<seq<real>>, rows: nat, width: nat, cores: nat)
    requires cores > 0 && full.Length == rows * width
    requires |coreResults| > 0 && SameLength(coreResults, full.Length)
    modifies full
    ensures full[..] == Add(old(full[..]), SumAll(coreResults, full.Length))
  {
    var combineResults := CombineSlabs(coreResults, rows, width, cores);
    SlabBounds(0, 0, rows, cores);
    ghost var before := full[..];
    for j := 0 to cores
      invariant forall k :: 0 <= k < full.Length ==>
                  full[k] == if k < SlabLo(j, rows, cores) * width then before[k] + SumAt(coreResults, k) else before[k]
    {
      AddSlab(full, combineResults[j], coreResults, j, rows, width, cores, before);
    }
  }

  /** `np.stack(hs, axis=-1)`: cell `k` of every result side by side; stacking nothing raises ValueError. */
  function Stack(hs: seq<seq<real>>, n: nat): (r: Result<seq<seq<real>>>)
    requires SameLength(hs, n)
    ensures r.Err? <==> |hs| == 0
    ensures r.Err? ==> r.error == ValueError
    ensures r.Ok? ==> |r.value| == n && forall k :: 0 <= k < n ==> |r.value[k]| == |hs|
    ensures r.Ok? ==> forall k, p :: 0 <= k < n && 0 <= p < |hs| ==> r.value[k][p] == hs[p][k]
  {
    if |hs| == 0 then Err(ValueError)
    else Ok(seq(n, k requires 0 <= k < n => seq(|hs|, p requires 0 <= p < |hs| => hs[p][k])))
  }

  function Sum(xs: seq<real>): real
    decreases |xs|
  {
    if |xs| == 0 then 0.0 else Sum(xs[..|xs| - 1]) + xs[|xs| - 1]
  }

  /** Adding up the stacked results along the partition axis gives the combined histogram. */
  lemma {:induction false} StackSum(hs: seq<seq<real>>, n: nat, k: nat)
    requires SameLength(hs, n) && |hs| > 0 && k < n
    ensures Sum(Stack(hs, n).value[k]) == SumAll(hs, n)[k]
    decreases |hs|
  {
    var row := Stack(hs, n).value[k];
    if |hs| == 1 {
      assert row[..0] == [];
      assert SumAt(hs, k) == SumAt(hs[..0], k) + hs[0][k];
    } else {
      var init := hs[..|hs| - 1];
      StackSum(init, n, k);
      assert row[..|row| - 1] == Stack(init, n).value[k];
    }
  }
}
