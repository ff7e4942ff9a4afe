/**
 * sed/core/dfops.py: row filtering by column bounds, column dropping, jitter
 * columns, and a two-column mapping. The random draw of `apply_jitter` is an
 * input: `noise` is the vector numpy would return.
 */
module DfOps {
  import opened Wrappers
  import opened Frames

  /** A column name or a list of them. */
  datatype Names = One(name: string) | Many(names: seq<string>)

  function NameList(n: Names): (r: seq<string>)
    ensures n.One? ==> r == [n.name]
    ensures n.Many? ==> r == n.names
  {
    match n
    case One(s) => [s]
    case Many(ss) => ss
  }

  /** Strict bounds; `None` stands for the infinite default. */
  predicate Inside(v: real, lo: Option<real>, hi: Option<real>)
  {
    (lo.None? || lo.value < v) && (hi.None? || v < hi.value)
  }

  function Mask(xs: seq<real>, lo: Option<real>, hi: Option<real>): (m: seq<bool>)
    ensures |m| == |xs| && forall i :: 0 <= i < |xs| ==> m[i] == Inside(xs[i], lo, hi)
  {
    seq(|xs|, i requires 0 <= i < |xs| => Inside(xs[i], lo, hi))
  }

  /** `apply_filter`: the rows whose `col` value lies strictly between the bounds; KeyError for an unknown column. */
  function ApplyFilter(t: Table, col: string, lo: Option<real>, hi: Option<real>): (r: Result<Table>)
    requires Rectangular(t)
    ensures r.Err? <==> col !in t.columns
    ensures r.Err? ==> r.error == KeyError
    ensures r.Ok? ==> Rectangular(r.value) && r.value.columns.Keys == t.columns.Keys
    ensures r.Ok? ==> forall j :: 0 <= j < r.value.rows ==> Inside(r.value.columns[col][j], lo, hi)
  {
    if col !in t.columns then Err(KeyError)
    else
      var m := Mask(t.columns[col], lo, hi);
      var r := SelectRows(t, m);
      assert forall j :: 0 <= j < r.rows ==> Inside(r.columns[col][j], lo, hi) by {
        forall j | 0 <= j < r.rows ensures Inside(r.columns[col][j], lo, hi) {
          SelectOnlyKept(t.columns[col], m, j);
        }
      }
      Ok(r)
  }

  /**
   * Every row that passes is kept, whole, at its rank among the passing rows,
   * so the kept rows keep their relative order.
   */
  lemma {:induction false} FilterKeepsPassing(t: Table, col: string, lo: Option<real>, hi: Option<real>, i: nat, c: string)
    requires Rectangular(t) && col in t.columns && c in t.columns && i < t.rows
    requires Inside(t.columns[col][i], lo, hi)
    ensures Count(Mask(t.columns[col], lo, hi)[..i]) < ApplyFilter(t, col, lo, hi).value.rows
    ensures ApplyFilter(t, col, lo, hi).value.columns[c][Count(Mask(t.columns[col], lo, hi)[..i])]
         == t.columns[c][i]
  {
    SelectAt(t.columns[c], Mask(t.columns[col], lo, hi), i);
  }

  /** Filtering twice is filtering once by the conjunction of both conditions. */
  lemma {:induction false} FilterTwice(t: Table, c1: string, lo1: Option<real>, hi1: Option<real>,
                    c2: string, lo2: Option<real>, hi2: Option<real>)
    requires Rectangular(t) && c1 in t.columns && c2 in t.columns
    ensures ApplyFilter(ApplyFilter(t, c1, lo1, hi1).value, c2, lo2, hi2)
         == Ok(SelectRows(t, And(Mask(t.columns[c1], lo1, hi1), Mask(t.columns[c2], lo2, hi2))))
  {
    var m1, m2 := Mask(t.columns[c1], lo1, hi1), Mask(t.columns[c2], lo2, hi2);
    var t1 := SelectRows(t, m1);
    assert ApplyFilter(t, c1, lo1, hi1) == Ok(t1);
    assert t1.columns[c2] == Select(t.columns[c2], m1);
    MaskSelect(t.columns[c2], m1, lo2, hi2);
    var m := Select(m2, m1);
    assert Mask(t1.columns[c2], lo2, hi2) == m;
    var t2 := SelectRows(t1, m);
    assert ApplyFilter(t1, c2, lo2, hi2) == Ok(t2);
    var both := SelectRows(t, And(m1, m2));
    forall c | c in t.columns ensures t2.columns[c] == both.columns[c] {
      SelectSelect(t.columns[c], m1, m2);
    }
    assert t2.columns == both.columns;
    SelectSelect(t.columns[c2], m1, m2);
  }

  /** Filters commute. */
  lemma {:induction false} FilterCommutes(t: Table, c1: string, lo1: Option<real>, hi1: Option<real>,
                       c2: string, lo2: Option<real>, hi2: Option<real>)
    requires Rectangular(t) && c1 in t.columns && c2 in t.columns
    ensures ApplyFilter(ApplyFilter(t, c1, lo1, hi1).value, c2, lo2, hi2)
         == ApplyFilter(ApplyFilter(t, c2, lo2, hi2).value, c1, lo1, hi1)
  {
    FilterTwice(t, c1, lo1, hi1, c2, lo2, hi2);
    FilterTwice(t, c2, lo2, hi2, c1, lo1, hi1);
    var m1, m2 := Mask(t.columns[c1], lo1, hi1), Mask(t.columns[c2], lo2, hi2);
    assert And(m1, m2) == And(m2, m1);
  }

  /** The mask of a selected column is the selected mask. */
  lemma {:induction false} MaskSelect(xs: seq<real>, keep: seq<bool>, lo: Option<real>, hi: Option<real>)
    requires |xs| == |keep|
    ensures Mask(Select(xs, keep), lo, hi) == Select(Mask(xs, lo, hi), keep)
    decreases |xs|
  {
    if |xs| > 0 {
      var n := |xs| - 1;
      MaskSelect(xs[..n], keep[..n], lo, hi);
      assert Mask(xs, lo, hi)[..n] == Mask(xs[..n], lo, hi);
      var s := Select(xs, keep);
      if keep[n] {
        assert s[..|s| - 1] == Select(xs[..n], keep[..n]);
        assert Mask(s, lo, hi) == Mask(s[..|s| - 1], lo, hi) + [Inside(xs[n], lo, hi)];
      }
    }
  }

  /** `drop_column`: removes the named columns; KeyError when any of them is absent. */
  function DropColumn(t: Table, names: Names): (r: Result<Table>)
    requires Rectangular(t)
    ensures r.Err? <==> exists i :: 0 <= i < |NameList(names)| && NameList(names)[i] !in t.columns
    ensures r.Err? ==> r.error == KeyError
    ensures r.Ok? ==> Rectangular(r.value) && r.value.rows == t.rows
    ensures r.Ok? ==> forall c :: c in r.value.columns <==> c in t.columns && c !in NameList(names)
    ensures r.Ok? ==> forall c :: c in r.value.columns ==> r.value.columns[c] == t.columns[c]
  {
    var ns := NameList(names);
    if exists i :: 0 <= i < |ns| && ns[i] !in t.columns then Err(KeyError)
    else Ok(Table(map c | c in t.columns && c !in ns :: t.columns[c], t.rows))
  }

  /** An amplitude: one float for every column, a list, or an int (which is not a float, and is not iterable). */
  datatype Amps = Scalar(a: real) | Integer(n: int) | PerColumn(amps: seq<real>)

  /** The checks and defaults of `apply_jitter` before the loop: source names, output names, amplitudes. */
  function JitterPlan(t: Table, cols: Option<Names>, colsJittered: Option<Names>, amps: Amps, jitterType: string)
    : (r: Result<(seq<string>, seq<string>, seq<real>)>)
    ensures cols.None? || jitterType !in {"uniform", "normal"} ==> r == Err(AssertionError)
    ensures r.Ok? ==> r.value.0 == NameList(cols.value)
    ensures r.Ok? && colsJittered.None? ==>
              |r.value.1| == |r.value.0| && forall k :: 0 <= k < |r.value.0| ==> r.value.1[k] == r.value.0[k] + "_jittered"
    ensures r.Ok? && colsJittered.Some? ==> r.value.1 == NameList(colsJittered.value)
    ensures r.Ok? && amps.Scalar? ==>
              |r.value.2| == |r.value.0| && forall k :: 0 <= k < |r.value.0| ==> r.value.2[k] == amps.a
    ensures r.Ok? && amps.PerColumn? ==> r.value.2 == amps.amps
    ensures r.Ok? <==> cols.Some? && jitterType in {"uniform", "normal"}
                       && |NameList(cols.value)| > 0 && NameList(cols.value)[0] in t.columns && !amps.Integer?
  {
    if cols.None? || !(jitterType == "uniform" || jitterType == "normal") then Err(AssertionError)
    else
      var cs := NameList(cols.value);
      var js := if colsJittered.None? then seq(|cs|, k requires 0 <= k < |cs| => cs[k] + "_jittered")
                else NameList(colsJittered.value);
      if |cs| == 0 then Err(IndexError)
      else if cs[0] !in t.columns then Err(KeyError)
      else
        match amps
        case Integer(_) => Err(TypeError)
        case Scalar(a) => Ok((cs, js, seq(|cs|, k => a)))
        case PerColumn(scales) => Ok((cs, js, scales))
  }

  /** `col + amp * noise`, elementwise. */
  function AddScaled(xs: seq<real>, amp: real, noise: seq<real>): (r: seq<real>)
    requires |xs| == |noise|
    ensures |r| == |xs| && forall i :: 0 <= i < |xs| ==> r[i] == xs[i] + amp * noise[i]
  {
    seq(|xs|, i requires 0 <= i < |xs| => xs[i] + amp * noise[i])
  }

  /** With noise in [-1, 1] (the uniform draw), every value moves by at most |amp|. */
  lemma {:induction false} AddScaledBound(xs: seq<real>, amp: real, noise: seq<real>, i: nat)
    requires |xs| == |noise| && i < |xs| && -1.0 <= noise[i] <= 1.0
    ensures -Abs(amp) <= AddScaled(xs, amp, noise)[i] - xs[i] <= Abs(amp)
  {
    ScaledBound(amp, noise[i]);
  }

  lemma {:induction false} ScaledBound(a: real, x: real)
    requires -1.0 <= x <= 1.0
    ensures -Abs(a) <= a * x <= Abs(a)
  {
    if a >= 0.0 {
      MulNonneg(a, 1.0 - x);
      MulNonneg(a, x + 1.0);
    } else {
      MulNonneg(-a, 1.0 - x);
      MulNonneg(-a, x + 1.0);
    }
  }

  lemma {:induction false} MulNonneg(p: real, q: real)
    requires p >= 0.0 && q >= 0.0
    ensures p * q >= 0.0
  {
  }

  function Abs(x: real): real { if x < 0.0 then -x else x }

  function Min3(a: nat, b: nat, c: nat): (m: nat)
    ensures m <= a && m <= b && m <= c && (m == a || m == b || m == c)
  {
    if a <= b && a <= c then a else if b <= c then b else c
  }

  /**
   * The `zip` loop of `apply_jitter` from pair `k` on: each output column is its
   * source plus the scaled noise; a source not (yet) present raises KeyError
   * and leaves the columns written so far.
   */
  function JitterFrom(cols: map<string, seq<real>>, rows: nat, cs: seq<string>, js: seq<string>, scales: seq<real>,
                      noise: seq<real>, k: nat): (r: (map<string, seq<real>>, Outcome))
    requires k <= Min3(|cs|, |js|, |scales|) && |noise| == rows
    requires forall c :: c in cols ==> |cols[c]| == rows
    ensures forall c :: c in r.0 ==> |r.0[c]| == rows
    decreases Min3(|cs|, |js|, |scales|) - k
  {
    if k == Min3(|cs|, |js|, |scales|) then (cols, Pass)
    else if cs[k] !in cols then (cols, Fail(KeyError))
    else JitterFrom(cols[js[k] := AddScaled(cols[cs[k]], scales[k], noise)], rows, cs, js, scales, noise, k + 1)
  }

  /**
   * `apply_jitter(df, cols, cols_jittered, amps, jitter_type)`, with `noise`
   * the draw of `colsize` values for the chosen distribution.
   */
  method ApplyJitter(df: DataFrame, cols: Option<Names>, colsJittered: Option<Names>, amps: Amps,
                     jitterType: string, noise: seq<real>) returns (o: Outcome)
    requires df.Valid() && |noise| == df.table.rows
    modifies df
    ensures df.Valid() && df.table.rows == old(df.table.rows)
    ensures JitterPlan(old(df.table), cols, colsJittered, amps, jitterType).Err? ==>
              o == Fail(JitterPlan(old(df.table), cols, colsJittered, amps, jitterType).error)
              && df.table == old(df.table)
    ensures JitterPlan(old(df.table), cols, colsJittered, amps, jitterType).Ok? ==>
              var p := JitterPlan(old(df.table), cols, colsJittered, amps, jitterType).value;
              (df.table.columns, o) == JitterFrom(old(df.table.columns), old(df.table.rows), p.0, p.1, p.2, noise, 0)
  {
    var plan := JitterPlan(df.table, cols, colsJittered, amps, jitterType);
    if plan.Err? {
      return Fail(plan.error);
    }
    var (cs, js, scales) := plan.value;
    var n := Min3(|cs|, |js|, |scales|);
    var k := 0;
    while k < n
      invariant k <= n && df.Valid() && df.table.rows == old(df.table.rows)
      invariant JitterFrom(df.table.columns, df.table.rows, cs, js, scales, noise, k)
             == JitterFrom(old(df.table.columns), old(df.table.rows), cs, js, scales, noise, 0)
    {
      if cs[k] !in df.table.columns {
        return Fail(KeyError);
      }
      df.SetColumn(js[k], AddScaled(df.table.columns[cs[k]], scales[k], noise));
      k := k + 1;
    }
    return Pass;
  }

  /** The loop only adds or replaces columns: it ends with the sources' keys plus every output name it reached. */
  lemma {:induction false} JitterKeys(cols: map<string, seq<real>>, rows: nat, cs: seq<string>, js: seq<string>,
                                      scales: seq<real>, noise: seq<real>, k: nat)
    requires k <= Min3(|cs|, |js|, |scales|) && |noise| == rows
    requires forall c :: c in cols ==> |cols[c]| == rows
    ensures cols.Keys <= JitterFrom(cols, rows, cs, js, scales, noise, k).0.Keys
    ensures JitterFrom(cols, rows, cs, js, scales, noise, k).1 == Pass ==>
              JitterFrom(cols, rows, cs, js, scales, noise, k).0.Keys
              == cols.Keys + set i | k <= i < Min3(|cs|, |js|, |scales|) :: js[i]
    decreases Min3(|cs|, |js|, |scales|) - k
  {
    var n := Min3(|cs|, |js|, |scales|);
    if k < n && cs[k] in cols {
      var next := cols[js[k] := AddScaled(cols[cs[k]], scales[k], noise)];
      JitterKeys(next, rows, cs, js, scales, noise, k + 1);
      assert (set i | k <= i < n :: js[i]) == {js[k]} + set i | k + 1 <= i < n :: js[i];
    }
  }

  /** The loop raises KeyError exactly when some source it reaches is missing (sources present up front stay present). */
  lemma {:induction false} JitterPasses(cols: map<string, seq<real>>, rows: nat, cs: seq<string>, js: seq<string>,
                                        scales: seq<real>, noise: seq<real>, k: nat)
    requires k <= Min3(|cs|, |js|, |scales|) && |noise| == rows
    requires forall c :: c in cols ==> |cols[c]| == rows
    requires forall i :: k <= i < Min3(|cs|, |js|, |scales|) ==> cs[i] in cols
    ensures JitterFrom(cols, rows, cs, js, scales, noise, k).1 == Pass
    decreases Min3(|cs|, |js|, |scales|) - k
  {
    if k < Min3(|cs|, |js|, |scales|) {
      JitterPasses(cols[js[k] := AddScaled(cols[cs[k]], scales[k], noise)], rows, cs, js, scales, noise, k + 1);
    }
  }

  /** A column that is not an output name keeps its values. */
  lemma {:induction false} JitterUnchanged(cols: map<string, seq<real>>, rows: nat, cs: seq<string>, js: seq<string>,
                                           scales: seq<real>, noise: seq<real>, k: nat, c: string)
    requires k <= Min3(|cs|, |js|, |scales|) && |noise| == rows
    requires forall c :: c in cols ==> |cols[c]| == rows
    requires c in cols && forall i :: k <= i < Min3(|cs|, |js|, |scales|) ==> js[i] != c
    ensures c in JitterFrom(cols, rows, cs, js, scales, noise, k).0
    ensures JitterFrom(cols, rows, cs, js, scales, noise, k).0[c] == cols[c]
    decreases Min3(|cs|, |js|, |scales|) - k
  {
    if k < Min3(|cs|, |js|, |scales|) && cs[k] in cols {
      JitterUnchanged(cols[js[k] := AddScaled(cols[cs[k]], scales[k], noise)], rows, cs, js, scales, noise, k + 1, c);
    }
  }

  /**
   * When no output name is a source and the output names are distinct, output
   * `js[i]` ends as source `cs[i]` plus `scales[i]` times the one noise vector
   * shared by all columns.
   */
  lemma {:induction false} JitterValues(cols: map<string, seq<real>>, rows: nat, cs: seq<string>, js: seq<string>,
                                        scales: seq<real>, noise: seq<real>, k: nat, i: nat)
    requires k <= i < Min3(|cs|, |js|, |scales|) && |noise| == rows
    requires forall c :: c in cols ==> |cols[c]| == rows
    requires forall m :: k <= m < Min3(|cs|, |js|, |scales|) ==> cs[m] in cols
    requires forall m, p :: k <= m < Min3(|cs|, |js|, |scales|) && k <= p < Min3(|cs|, |js|, |scales|) ==> js[m] != cs[p]
    requires forall m, p :: k <= m < p < Min3(|cs|, |js|, |scales|) ==> js[m] != js[p]
    ensures js[i] in JitterFrom(cols, rows, cs, js, scales, noise, k).0
    ensures JitterFrom(cols, rows, cs, js, scales, noise, k).0[js[i]] == AddScaled(cols[cs[i]], scales[i], noise)
    decreases Min3(|cs|, |js|, |scales|) - k
  {
    var next := cols[js[k] := AddScaled(cols[cs[k]], scales[k], noise)];
    if i == k {
      JitterUnchanged(next, rows, cs, js, scales, noise, k + 1, js[k]);
    } else {
      assert next[cs[i]] == cols[cs[i]];
      JitterValues(next, rows, cs, js, scales, noise, k + 1, i);
    }
  }

  /** A keyword argument's value, or its default when it was not passed (`kwds.pop(name, default)`). */
  function OrElse(o: Option<string>, default: string): string
  {
    if o.Some? then o.value else default
  }

  /** `map_columns_2d`: both columns mapped row by row, stored under the new names (the inputs' names by default). */
  function MapColumns2D(t: Table, f: (real, real) -> (real, real), x: string, y: string,
                        newX: Option<string>, newY: Option<string>): (r: Result<Table>)
    requires Rectangular(t)
    ensures r.Err? <==> x !in t.columns || y !in t.columns
    ensures r.Err? ==> r.error == KeyError
    ensures r.Ok? ==> Rectangular(r.value) && r.value.rows == t.rows
    ensures r.Ok? ==> r.value.columns.Keys == t.columns.Keys + {OrElse(newX, x), OrElse(newY, y)}
    ensures r.Ok? ==> forall i :: 0 <= i < t.rows ==>
              r.value.columns[OrElse(newY, y)][i] == f(t.columns[x][i], t.columns[y][i]).1
    ensures r.Ok? && OrElse(newX, x) != OrElse(newY, y) ==> forall i :: 0 <= i < t.rows ==>
              r.value.columns[OrElse(newX, x)][i] == f(t.columns[x][i], t.columns[y][i]).0
    ensures r.Ok? ==> forall c :: c in t.columns && c != OrElse(newX, x) && c != OrElse(newY, y) ==>
              r.value.columns[c] == t.columns[c]
  {
    if x !in t.columns || y !in t.columns then Err(KeyError)
    else
      var xs, ys := t.columns[x], t.columns[y];
      var mx := seq(t.rows, i requires 0 <= i < t.rows => f(xs[i], ys[i]).0);
      var my := seq(t.rows, i requires 0 <= i < t.rows => f(xs[i], ys[i]).1);
      var nx, ny := OrElse(newX, x), OrElse(newY, y);
      Ok(t.(columns := t.columns[nx := mx][ny := my]))
  }

  /**
   * Without new names the mapping overwrites its inputs in place: the set of
   * columns is unchanged, x and y hold the mapped values (y's assignment wins
   * when both are the same column), and every other column is unchanged.
   */
  lemma {:induction false} MapDefaultsOverwrite(t: Table, f: (real, real) -> (real, real), x: string, y: string, c: string)
    requires Rectangular(t) && x in t.columns && y in t.columns
    ensures MapColumns2D(t, f, x, y, None, None).value.columns.Keys == t.columns.Keys
    ensures forall i :: 0 <= i < t.rows ==>
              MapColumns2D(t, f, x, y, None, None).value.columns[y][i] == f(t.columns[x][i], t.columns[y][i]).1
    ensures x != y ==> forall i :: 0 <= i < t.rows ==>
              MapColumns2D(t, f, x, y, None, None).value.columns[x][i] == f(t.columns[x][i], t.columns[y][i]).0
    ensures c in t.columns && c != x && c != y ==> MapColumns2D(t, f, x, y, None, None).value.columns[c] == t.columns[c]
  {
  }

  /** `map_columns_2d` on a frame: the columns are assigned in place. */
  method MapColumns2DInPlace(df: DataFrame, f: (real, real) -> (real, real), x: string, y: string,
                             newX: Option<string>, newY: Option<string>) returns (o: Outcome)
    requires df.Valid()
    modifies df
    ensures df.Valid()
    ensures MapColumns2D(old(df.table), f, x, y, newX, newY).Err? ==> o == Fail(KeyError) && df.table == old(df.table)
    ensures MapColumns2D(old(df.table), f, x, y, newX, newY).Ok? ==>
              o == Pass && df.table == MapColumns2D(old(df.table), f, x, y, newX, newY).value
  {
    var r := MapColumns2D(df.table, f, x, y, newX, newY);
    if r.Err? {
      return Fail(KeyError);
    }
    var nx, ny := OrElse(newX, x), OrElse(newY, y);
    df.SetColumn(nx, r.value.columns[nx]);
    df.SetColumn(ny, r.value.columns[ny]);
    return Pass;
  }
}
