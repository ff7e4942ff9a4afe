/**
 * sed/calibrator/hextof.py: the 8-sector detector packs the sector id into the
 * three low bits of its time channel. Decoding splits each value into a step
 * count and a sector id, alignment subtracts a per-sector delay from the steps,
 * and conversion scales steps to nanoseconds.
 */
module Hextof {
  import opened Wrappers
  import opened Values
  import opened Frames

  /** The `config["dataframe"]` entries these functions fall back on; `None` is a missing key. */
  datatype Section = Section(
    timeStepSize: Option<real>,
    tofStepColumn: Option<string>,
    sectorIdColumn: Option<string>,
    tofColumn: Option<string>,
    sectorDelays: Option<seq<real>>)

  /** The `config` argument: not given, or a dict that may lack its "dataframe" section. */
  datatype Config = NoConfig | Config(dataframe: Option<Section>)

  /**
   * An argument that defaults to a config entry: a given value is used; with
   * neither the value nor a config, ValueError; a config without the entry
   * raises KeyError.
   */
  function Resolve<T>(given: Option<T>, cfg: Config, field: Section -> Option<T>): (r: Result<T>)
    ensures given.Some? ==> r == Ok(given.value)
    ensures given.None? && cfg.NoConfig? ==> r == Err(ValueError)
    ensures given.None? && cfg.Config? ==>
              (cfg.dataframe.None? ==> r == Err(KeyError)) &&
              (cfg.dataframe.Some? && field(cfg.dataframe.value).None? ==> r == Err(KeyError)) &&
              (cfg.dataframe.Some? && field(cfg.dataframe.value).Some? ==> r == Ok(field(cfg.dataframe.value).value))
  {
    if given.Some? then Ok(given.value)
    else if cfg.NoConfig? then Err(ValueError)
    else if cfg.dataframe.None? then Err(KeyError)
    else match field(cfg.dataframe.value)
      case None => Err(KeyError)
      case Some(x) => Ok(x)
  }

  /** `float // 8`: floor division of a float by 8. */
  function Step(v: real): (s: int)
    ensures 8.0 * s as real <= v < 8.0 * s as real + 8.0
  {
    (v / 8.0).Floor
  }

  /** `(v % 8).astype(int8)`: the remainder lies in [0, 8), so the cast truncates it to its floor. */
  function Sector(v: real): (k: int)
    ensures 0 <= k < 8
    ensures k as real <= v - 8.0 * Step(v) as real < k as real + 1.0
  {
    (v - 8.0 * Step(v) as real).Floor
  }

  /** `astype(int)`: truncation toward zero. */
  function Trunc(x: real): (n: int)
    ensures x >= 0.0 ==> n as real <= x < n as real + 1.0
    ensures x < 0.0 ==> n as real - 1.0 < x <= n as real
  {
    if x >= 0.0 then x.Floor else -((-x).Floor)
  }

  predicate Integral(v: real)
  {
    v == v.Floor as real
  }

  /** An integral time value is its step count times 8 plus its sector id. */
  lemma {:induction false} Reconstruct(v: real)
    requires Integral(v)
    ensures 8 * Step(v) + Sector(v) == v.Floor
  {
    var q := Step(v);
    var rest := v - 8.0 * q as real;
    assert rest == (v.Floor - 8 * q) as real;
    assert Sector(v) == v.Floor - 8 * q;
  }

  /** Packing a step count and a sector id in 0..7 and decoding gives both back. */
  lemma {:induction false} Unpack(step: int, sector: int)
    requires 0 <= sector < 8
    ensures Step((8 * step + sector) as real) == step
    ensures Sector((8 * step + sector) as real) == sector
  {
    var v := (8 * step + sector) as real;
    var q := Step(v);
    assert 8 * q <= 8 * step + sector < 8 * q + 8;
    assert q == step;
  }

  /** The kept-rows mask of `dropna(subset=[col])`, given which rows hold NaN in `col`. */
  function Present(nan: seq<bool>): (keep: seq<bool>)
    ensures |keep| == |nan| && forall i :: 0 <= i < |nan| ==> keep[i] == !nan[i]
  {
    seq(|nan|, i requires 0 <= i < |nan| => !nan[i])
  }

  function Sectors(xs: seq<real>): (r: seq<real>)
    ensures |r| == |xs| && forall i :: 0 <= i < |xs| ==> r[i] == Sector(xs[i]) as real
  {
    seq(|xs|, i requires 0 <= i < |xs| => Sector(xs[i]) as real)
  }

  function Steps(xs: seq<real>): (r: seq<real>)
    ensures |r| == |xs| && forall i :: 0 <= i < |xs| ==> r[i] == Step(xs[i]) as real
  {
    seq(|xs|, i requires 0 <= i < |xs| => Step(xs[i]) as real)
  }

  /** Column assignment `df[name] = data` on a table value. */
  function Assign(t: Table, name: string, data: seq<real>): (r: Table)
    requires Rectangular(t) && |data| == t.rows
    ensures Rectangular(r) && r.rows == t.rows && r.columns.Keys == t.columns.Keys + {name}
    ensures r.columns[name] == data && forall c :: c in t.columns && c != name ==> r.columns[c] == t.columns[c]
  {
    t.(columns := t.columns[name := data])
  }

  /**
   * `unravel_8s_detector_time_channel`: rows whose time-and-sector value is NaN
   * (as `nan` marks them) are dropped, a missing column raising KeyError; the
   * output column names fall back on the config; then the sector column is
   * assigned, and the step column is computed from the time-and-sector column
   * as it reads after that assignment.
   */
  function Unravelled(t: Table, nan: seq<bool>, timeSector: string, tofStep: Option<string>,
                      sectorId: Option<string>, cfg: Config): Result<Table>
    requires Rectangular(t) && |nan| == t.rows
  {
    if timeSector !in t.columns then Err(KeyError)
    else
      var kept := SelectRows(t, Present(nan));
      var tofCol :- Resolve(tofStep, cfg, (s: Section) => s.tofStepColumn);
      var sectorCol :- Resolve(sectorId, cfg, (s: Section) => s.sectorIdColumn);
      var withSectors := Assign(kept, sectorCol, Sectors(kept.columns[timeSector]));
      Ok(Assign(withSectors, tofCol, Steps(withSectors.columns[timeSector])))
  }

  method Unravel8s(df: DataFrame, nan: seq<bool>, timeSector: string, tofStep: Option<string>,
                   sectorId: Option<string>, cfg: Config) returns (r: Result<DataFrame>)
    requires df.Valid() && |nan| == df.table.rows
    ensures Unravelled(df.table, nan, timeSector, tofStep, sectorId, cfg).Err? ==>
              r == Err(Unravelled(df.table, nan, timeSector, tofStep, sectorId, cfg).error)
    ensures Unravelled(df.table, nan, timeSector, tofStep, sectorId, cfg).Ok? ==>
              r.Ok? && fresh(r.value) && r.value.Valid() &&
              r.value.table == Unravelled(df.table, nan, timeSector, tofStep, sectorId, cfg).value
  {
    if timeSector !in df.table.columns {
      return Err(KeyError);
    }
    var out := new DataFrame(SelectRows(df.table, Present(nan)));
    var tofCol := Resolve(tofStep, cfg, (s: Section) => s.tofStepColumn);
    if tofCol.Err? {
      return Err(tofCol.error);
    }
    var sectorCol := Resolve(sectorId, cfg, (s: Section) => s.sectorIdColumn);
    if sectorCol.Err? {
      return Err(sectorCol.error);
    }
    out.SetColumn(sectorCol.value, Sectors(out.table.columns[timeSector]));
    out.SetColumn(tofCol.value, Steps(out.table.columns[timeSector]));
    return Ok(out);
  }

  /**
   * Decoding keeps exactly the rows whose value is not NaN, in order, and
   * leaves every other column as those rows held it. When the three columns
   * are distinct, each kept integral value is its step times 8 plus its sector.
   */
  lemma {:induction false} UnravelDecodes(t: Table, nan: seq<bool>, timeSector: string, tofStep: Option<string>,
                       sectorId: Option<string>, cfg: Config, i: nat)
    requires Rectangular(t) && |nan| == t.rows
    requires Unravelled(t, nan, timeSector, tofStep, sectorId, cfg).Ok?
    ensures var u := Unravelled(t, nan, timeSector, tofStep, sectorId, cfg).value;
            var tofCol := Resolve(tofStep, cfg, (s: Section) => s.tofStepColumn).value;
            var sectorCol := Resolve(sectorId, cfg, (s: Section) => s.sectorIdColumn).value;
            var source := Select(t.columns[timeSector], Present(nan));
            && u.rows == Count(Present(nan))
            && (forall c :: c in t.columns && c != tofCol && c != sectorCol ==>
                  u.columns[c] == Select(t.columns[c], Present(nan)))
            && (i < u.rows && tofCol != sectorCol ==>
                  0.0 <= u.columns[sectorCol][i] < 8.0 && Integral(u.columns[sectorCol][i]))
            && (i < u.rows && timeSector != sectorCol && tofCol != sectorCol && Integral(source[i]) ==>
                  8.0 * u.columns[tofCol][i] + u.columns[sectorCol][i] == source[i])
  {
    var u := Unravelled(t, nan, timeSector, tofStep, sectorId, cfg).value;
    var tofCol := Resolve(tofStep, cfg, (s: Section) => s.tofStepColumn).value;
    var sectorCol := Resolve(sectorId, cfg, (s: Section) => s.sectorIdColumn).value;
    var source := Select(t.columns[timeSector], Present(nan));
    if i < u.rows && tofCol != sectorCol {
      assert u.columns[sectorCol] == Sectors(source);
      assert u.columns[sectorCol][i] == Sector(source[i]) as real;
      if timeSector != sectorCol && Integral(source[i]) {
        assert u.columns[tofCol] == Steps(source);
        Reconstruct(source[i]);
      }
    }
  }

  /** `sector_delays_arr[i]` for an integer index: negative indices count from the end; out of range raises IndexError. */
  function PyIndex(n: int, len: nat): (r: Option<nat>)
    ensures r.Some? <==> 0 <= n + len && n < len
    ensures r.Some? ==> r.value < len && (r.value == n || r.value == n + len)
  {
    if 0 <= n < len then Some(n)
    else if 0 <= n + len && n < 0 then Some(n + len)
    else None
  }

  /** Every sector id, truncated to an integer, indexes the delay array. */
  predicate Indexable(sectors: seq<real>, delays: seq<real>)
  {
    forall i :: 0 <= i < |sectors| ==> PyIndex(Trunc(sectors[i]), |delays|).Some?
  }

  /** `align_sector`: each row's steps minus the delay of its sector. */
  function AlignedSteps(steps: seq<real>, sectors: seq<real>, delays: seq<real>): (r: Result<seq<real>>)
    requires |steps| == |sectors|
    ensures r.Err? <==> !Indexable(sectors, delays)
    ensures r.Err? ==> r.error == IndexError
    ensures r.Ok? ==> |r.value| == |steps|
    ensures r.Ok? ==> forall i :: 0 <= i < |steps| ==>
              r.value[i] + delays[PyIndex(Trunc(sectors[i]), |delays|).value] == steps[i]
  {
    if !Indexable(sectors, delays) then Err(IndexError)
    else Ok(seq(|steps|, i requires 0 <= i < |steps| =>
                  steps[i] - delays[PyIndex(Trunc(sectors[i]), |delays|).value]))
  }

  function AlignMetadata(delays: seq<real>): seq<Entry>
  {
    [Entry("applied", Leaf(Flag(true))), Entry("sector_delays", Leaf(Numbers(delays)))]
  }

  /**
   * `align_8s_sectors`: the delays fall back on the config; the step column is
   * read before the sector column (a missing one raises KeyError), and the step
   * column is replaced by the aligned steps. The metadata records the delays.
   */
  function Aligned(t: Table, delays: Option<seq<real>>, sectorId: string, tofStep: string, cfg: Config)
    : (r: Result<(Table, seq<Entry>)>)
    requires Rectangular(t)
    ensures r.Ok? ==> Rectangular(r.value.0) && r.value.0.rows == t.rows
  {
    var d :- Resolve(delays, cfg, (s: Section) => s.sectorDelays);
    if tofStep !in t.columns || sectorId !in t.columns then Err(KeyError)
    else
      var aligned :- AlignedSteps(t.columns[tofStep], t.columns[sectorId], d);
      Ok((Assign(t, tofStep, aligned), AlignMetadata(d)))
  }

  method Align8s(df: DataFrame, delays: Option<seq<real>>, sectorId: string, tofStep: string, cfg: Config)
    returns (r: Result<seq<Entry>>)
    requires df.Valid()
    modifies df
    ensures df.Valid()
    ensures Aligned(old(df.table), delays, sectorId, tofStep, cfg).Err? ==>
              r == Err(Aligned(old(df.table), delays, sectorId, tofStep, cfg).error) && df.table == old(df.table)
    ensures Aligned(old(df.table), delays, sectorId, tofStep, cfg).Ok? ==>
              r == Ok(Aligned(old(df.table), delays, sectorId, tofStep, cfg).value.1) &&
              df.table == Aligned(old(df.table), delays, sectorId, tofStep, cfg).value.0
  {
    var d := Resolve(delays, cfg, (s: Section) => s.sectorDelays);
    if d.Err? {
      return Err(d.error);
    }
    if tofStep !in df.table.columns || sectorId !in df.table.columns {
      return Err(KeyError);
    }
    var aligned := AlignedSteps(df.table.columns[tofStep], df.table.columns[sectorId], d.value);
    if aligned.Err? {
      return Err(aligned.error);
    }
    df.SetColumn(tofStep, aligned.value);
    return Ok(AlignMetadata(d.value));
  }

  /**
   * Aligning a decoded frame with one delay per sector never raises: every
   * decoded sector id lies in 0..7. Each row's steps drop by its sector's
   * delay, and no other column changes.
   */
  lemma {:induction false} AlignAfterUnravel(t: Table, nan: seq<bool>, timeSector: string, tofStep: string, sectorId: string,
                          delays: seq<real>, cfg: Config, i: nat)
    requires Rectangular(t) && |nan| == t.rows && |delays| == 8 && tofStep != sectorId
    requires Unravelled(t, nan, timeSector, Some(tofStep), Some(sectorId), cfg).Ok?
    ensures var u := Unravelled(t, nan, timeSector, Some(tofStep), Some(sectorId), cfg).value;
            Rectangular(u) &&
            var a := Aligned(u, Some(delays), sectorId, tofStep, cfg);
            && a.Ok?
            && (forall c :: c in u.columns && c != tofStep ==> a.value.0.columns[c] == u.columns[c])
            && (i < u.rows ==>
                  a.value.0.columns[tofStep][i] == u.columns[tofStep][i] - delays[Trunc(u.columns[sectorId][i])])
  {
    var u := Unravelled(t, nan, timeSector, Some(tofStep), Some(sectorId), cfg).value;
    assert Indexable(u.columns[sectorId], delays) by {
      forall j | 0 <= j < |u.columns[sectorId]|
        ensures PyIndex(Trunc(u.columns[sectorId][j]), |delays|).Some?
      {
        UnravelDecodes(t, nan, timeSector, Some(tofStep), Some(sectorId), cfg, j);
      }
    }
    if i < u.rows {
      UnravelDecodes(t, nan, timeSector, Some(tofStep), Some(sectorId), cfg, i);
      var k := u.columns[sectorId][i];
      assert Trunc(k) == k.Floor;
    }
  }

  function Scaled(steps: seq<real>, size: real): (r: seq<real>)
    ensures |r| == |steps| && forall i :: 0 <= i < |steps| ==> r[i] == steps[i] * size
  {
    seq(|steps|, i requires 0 <= i < |steps| => steps[i] * size)
  }

  function ConvertMetadata(size: real): seq<Entry>
  {
    [Entry("applied", Leaf(Flag(true))), Entry("time_step_size", Leaf(Number(size)))]
  }

  /**
   * `convert_8s_time_to_ns`: the step size, the step column and the time
   * column fall back on the config in that order; the time column is the
   * steps times the step size. The metadata records the step size.
   */
  function Converted(t: Table, size: Option<real>, tofStep: Option<string>, tof: Option<string>, cfg: Config)
    : (r: Result<(Table, seq<Entry>)>)
    requires Rectangular(t)
    ensures r.Ok? ==> Rectangular(r.value.0) && r.value.0.rows == t.rows
  {
    var s :- Resolve(size, cfg, (c: Section) => c.timeStepSize);
    var stepCol :- Resolve(tofStep, cfg, (c: Section) => c.tofStepColumn);
    var tofCol :- Resolve(tof, cfg, (c: Section) => c.tofColumn);
    if stepCol !in t.columns then Err(KeyError)
    else Ok((Assign(t, tofCol, Scaled(t.columns[stepCol], s)), ConvertMetadata(s)))
  }

  method Convert8s(df: DataFrame, size: Option<real>, tofStep: Option<string>, tof: Option<string>, cfg: Config)
    returns (r: Result<seq<Entry>>)
    requires df.Valid()
    modifies df
    ensures df.Valid()
    ensures Converted(old(df.table), size, tofStep, tof, cfg).Err? ==>
              r == Err(Converted(old(df.table), size, tofStep, tof, cfg).error) && df.table == old(df.table)
    ensures Converted(old(df.table), size, tofStep, tof, cfg).Ok? ==>
              r == Ok(Converted(old(df.table), size, tofStep, tof, cfg).value.1) &&
              df.table == Converted(old(df.table), size, tofStep, tof, cfg).value.0
  {
    var s := Resolve(size, cfg, (c: Section) => c.timeStepSize);
    if s.Err? {
      return Err(s.error);
    }
    var stepCol := Resolve(tofStep, cfg, (c: Section) => c.tofStepColumn);
    if stepCol.Err? {
      return Err(stepCol.error);
    }
    var tofCol := Resolve(tof, cfg, (c: Section) => c.tofColumn);
    if tofCol.Err? {
      return Err(tofCol.error);
    }
    if stepCol.value !in df.table.columns {
      return Err(KeyError);
    }
    df.SetColumn(tofCol.value, Scaled(df.table.columns[stepCol.value], s.value));
    return Ok(ConvertMetadata(s.value));
  }

  /**
   * Conversion is undone by dividing by a nonzero step size, and it raises
   * ValueError exactly when the step size is missing with no config to fall
   * back on.
   */
  lemma {:induction false} ConvertInverts(t: Table, size: real, tofStep: string, tof: string, cfg: Config, i: nat)
    requires Rectangular(t) && size != 0.0 && tofStep in t.columns
    ensures Converted(t, Some(size), Some(tofStep), Some(tof), cfg).Ok?
    ensures i < t.rows ==>
              Converted(t, Some(size), Some(tofStep), Some(tof), cfg).value.0.columns[tof][i] / size
                == t.columns[tofStep][i]
  {
  }

  lemma {:induction false} ConvertNeedsSize(t: Table, size: Option<real>, tofStep: Option<string>, tof: Option<string>, cfg: Config)
    requires Rectangular(t)
    ensures Converted(t, size, tofStep, tof, cfg) == Err(ValueError) <==>
              (size.None? || tofStep.None? || tof.None?) && cfg.NoConfig?
  {
  }
}
