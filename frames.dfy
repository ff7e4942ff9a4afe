/**
 * Data frames as the modelled code sees them: named columns of equal length.
 * Index alignment, dtypes, column order and lazy (dask) evaluation are not
 * modelled; a row is the values at one position across all columns.
 */
module Frames {
  import opened Wrappers

  datatype Table = Table(columns: map<string, seq<real>>, rows: nat)

  /** Every column has one value per row. */
  ghost predicate Rectangular(t: Table)
  {
    forall c :: c in t.columns ==> |t.columns[c]| == t.rows
  }

  /** The number of rows a mask keeps. */
  function Count(keep: seq<bool>): (n: nat)
    ensures n <= |keep|
  {
    if |keep| == 0 then 0 else Count(keep[..|keep| - 1]) + (if keep[|keep| - 1] then 1 else 0)
  }

  /** Boolean indexing `xs[keep]`: the kept values, in their original order. */
  function Select<T>(xs: seq<T>, keep: seq<bool>): (r: seq<T>)
    requires |xs| == |keep|
    ensures |r| == Count(keep)
  {
    if |xs| == 0 then []
    else Select(xs[..|xs| - 1], keep[..|keep| - 1]) + (if keep[|keep| - 1] then [xs[|xs| - 1]] else [])
  }

  /** A kept row `i` lands at position Count(keep[..i]): every kept row is present, in order. */
  lemma {:induction false} SelectAt<T>(xs: seq<T>, keep: seq<bool>, i: nat)
    requires |xs| == |keep| && i < |xs| && keep[i]
    ensures Count(keep[..i]) < Count(keep)
    ensures Select(xs, keep)[Count(keep[..i])] == xs[i]
    decreases |xs|
  {
    var n := |xs| - 1;
    if i < n {
      assert keep[..n][..i] == keep[..i];
      SelectAt(xs[..n], keep[..n], i);
    } else {
      assert keep[..n] == keep[..i];
    }
  }

  /** Every position of the result is some kept row, the one whose rank it is. */
  lemma {:induction false} SelectOnlyKept<T>(xs: seq<T>, keep: seq<bool>, j: nat)
    requires |xs| == |keep| && j < Count(keep)
    ensures exists i :: 0 <= i < |xs| && keep[i] && Count(keep[..i]) == j && Select(xs, keep)[j] == xs[i]
    decreases |xs|
  {
    var n := |xs| - 1;
    if j < Count(keep[..n]) {
      SelectOnlyKept(xs[..n], keep[..n], j);
      var i :| 0 <= i < n && keep[..n][i] && Count(keep[..n][..i]) == j && Select(xs[..n], keep[..n])[j] == xs[..n][i];
      assert keep[..n][..i] == keep[..i];
    } else {
      assert keep[..n] == keep[..|keep| - 1];
      assert keep[n] && Count(keep[..n]) == j;
    }
  }

  /** Selecting by `outer` after `inner` is selecting by both at once. */
  lemma {:induction false} SelectSelect<T>(xs: seq<T>, inner: seq<bool>, outer: seq<bool>)
    requires |xs| == |inner| == |outer|
    ensures |Select(outer, inner)| == Count(inner)
    ensures Select(Select(xs, inner), Select(outer, inner)) == Select(xs, And(inner, outer))
    decreases |xs|
  {
    if |xs| > 0 {
      var n := |xs| - 1;
      assert And(inner, outer)[..n] == And(inner[..n], outer[..n]);
      SelectSelect(xs[..n], inner[..n], outer[..n]);
      var s, m := Select(xs, inner), Select(outer, inner);
      var a := And(inner, outer);
      if inner[n] {
        assert s[..|s| - 1] == Select(xs[..n], inner[..n]) && s[|s| - 1] == xs[n];
        assert m[..|m| - 1] == Select(outer[..n], inner[..n]) && m[|m| - 1] == outer[n];
        assert Select(s, m) == Select(xs[..n], a[..n]) + (if outer[n] then [xs[n]] else []);
      } else {
        assert s == Select(xs[..n], inner[..n]) && m == Select(outer[..n], inner[..n]);
        assert Select(xs, a) == Select(xs[..n], a[..n]);
      }
    }
  }

  function And(a: seq<bool>, b: seq<bool>): (r: seq<bool>)
    requires |a| == |b|
    ensures |r| == |a| && forall i :: 0 <= i < |a| ==> r[i] == (a[i] && b[i])
  {
    seq(|a|, i requires 0 <= i < |a| => a[i] && b[i])
  }

  /** `df[keep]`: the same mask applied to every column. */
  function SelectRows(t: Table, keep: seq<bool>): (r: Table)
    requires Rectangular(t) && |keep| == t.rows
    ensures Rectangular(r) && r.rows == Count(keep) && r.columns.Keys == t.columns.Keys
    ensures forall c :: c in t.columns ==> r.columns[c] == Select(t.columns[c], keep)
  {
    Table(map c | c in t.columns :: Select(t.columns[c], keep), Count(keep))
  }

  /** A frame updated in place by column assignment `df[name] = data`. */
  class DataFrame {
    var table: Table

    ghost predicate Valid()
      reads this
    {
      Rectangular(table)
    }

    constructor(t: Table)
      requires Rectangular(t)
      ensures Valid() && table == t
    {
      table := t;
    }

    /** `df[name] = data`: adds the column, or replaces it when it exists. */
    method SetColumn(name: string, data: seq<real>)
      requires Valid() && |data| == table.rows
      modifies this
      ensures Valid()
      ensures table == old(table).(columns := old(table).columns[name := data])
    {
      table := table.(columns := table.columns[name := data]);
    }
  }
}
